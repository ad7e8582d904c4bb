/** The booking wizard of components/BookingComponent.tsx: four steps
    (service, date and time, form, success), a draft of the choices made, and
    the booked slots of the chosen date. Each handler is one atomic method;
    the server's replies are parameters. */
module BookingWizard {
  import opened Wrappers
  import opened Json
  import I18n
  import Services
  import TimeSlots
  import opened BookingForm
  import opened Booking

  class Wizard {
    var step: int
    var draft: Draft
    var selectedDate: Option<string>
    var isSubmitting: bool
    var error: Option<string>
    var bookedSlots: seq<string>
    const locale: I18n.Locale

    /** Between two handlers the draft fits the step and no submission is
        running. */
    predicate Valid()
      reads this
    {
      DraftFitsStep(step, draft) && !isSubmitting
    }

    /** `availableSlots`, derived from the booked slots on every render. */
    function Slots(): seq<TimeSlots.TimeSlot>
      reads this
    {
      TimeSlots.AvailableSlots(bookedSlots)
    }

    constructor(locale: I18n.Locale)
      ensures Valid()
      ensures this.locale == locale
      ensures step == 1 && draft == EmptyDraft && selectedDate.None?
      ensures error.None? && bookedSlots == []
    {
      this.locale := locale;
      step := 1;
      draft := EmptyDraft;
      selectedDate := None;
      isSubmitting := false;
      error := None;
      bookedSlots := [];
    }

    /** A service button of step 1: record its id and go to step 2. */
    method SelectService(i: nat)
      requires Valid() && step == 1 && i < |Services.Catalog|
      modifies this
      ensures Valid()
      ensures draft == old(draft).(service := Services.Catalog[i].id) && step == 2
      ensures selectedDate == old(selectedDate) && error == old(error) && bookedSlots == old(bookedSlots)
    {
      assert Services.CatalogIds()[i] == Services.Catalog[i].id;
      draft := draft.(service := Services.Catalog[i].id);
      step := 2;
    }

    /** The calendar of step 2. A defined date is recorded and its booked
        slots fetched (none when the fetch fails); clearing the selection
        keeps the draft's date and the slots. */
    method SelectDate(date: Option<string>, reply: Result<Json>)
      requires Valid() && step == 2 && SlotsReplyModelled(reply)
      modifies this
      ensures Valid()
      ensures selectedDate == date
      ensures date.Some? ==> draft == old(draft).(date := date) && bookedSlots == BookedSlotsFrom(reply)
      ensures date.None? ==> draft == old(draft) && bookedSlots == old(bookedSlots)
      ensures step == old(step) && error == old(error)
    {
      selectedDate := date;
      if date.Some? {
        draft := draft.(date := date);
        if reply.Err? {
          bookedSlots := [];
        } else {
          bookedSlots := BookedSlotsFrom(reply);
        }
      }
    }

    /** Slot button `i`: an available slot records its label and goes to the
        form; a booked one does nothing. */
    method ClickSlot(i: nat)
      requires Valid() && step == 2 && i < |TimeSlots.AllTimeSlots|
      modifies this
      ensures Valid()
      ensures old(Slots()[i].available) ==> draft == old(draft).(time := TimeSlots.AllTimeSlots[i]) && step == 3
      ensures !old(Slots()[i].available) ==> draft == old(draft) && step == old(step)
      ensures old(Slots()[i].available) ==> TimeSlots.AllTimeSlots[i] !in bookedSlots
      ensures selectedDate == old(selectedDate) && error == old(error) && bookedSlots == old(bookedSlots)
    {
      TimeSlots.NoEmptyLabel();
      var slot := Slots()[i];
      assert slot.time == TimeSlots.AllTimeSlots[i];
      assert slot.time in TimeSlots.AllTimeSlots && slot.time != "";
      if slot.available {
        draft := draft.(time := slot.time);
        step := 3;
      }
    }

    /** "Continue" of step 2: to the form only once a time is chosen. */
    method Continue()
      requires Valid() && step == 2
      modifies this
      ensures Valid()
      ensures step == if old(draft).time != "" then 3 else 2
      ensures draft == old(draft) && selectedDate == old(selectedDate)
      ensures error == old(error) && bookedSlots == old(bookedSlots)
    {
      if draft.time != "" {
        step := 3;
      }
    }

    /** "Back" of step 2. */
    method BackToService()
      requires Valid() && step == 2
      modifies this
      ensures Valid() && step == 1
      ensures draft == old(draft) && selectedDate == old(selectedDate)
      ensures error == old(error) && bookedSlots == old(bookedSlots)
    {
      step := 1;
    }

    /** "Back" of the form. */
    method BackToDateTime()
      requires Valid() && step == 3
      modifies this
      ensures Valid() && step == 2
      ensures draft == old(draft) && selectedDate == old(selectedDate)
      ensures error == old(error) && bookedSlots == old(bookedSlots)
    {
      step := 2;
    }

    /** `handleConfirmBooking` on the record the form accepted: the new step
        and error are those of `Submit`, the calls made are returned, the
        draft and the slots are kept, and `isSubmitting` ends false whatever
        happened. */
    method ConfirmBooking(data: Submission, patientReply: Result<Json>, appointmentReply: Result<Json>,
                          clinicPhone: Option<string>) returns (effects: seq<Effect>)
      requires Valid() && step == 3
      modifies this
      ensures Valid() && !isSubmitting
      ensures var o := Submit(old(step), old(draft), data, locale, patientReply, appointmentReply, clinicPhone);
        effects == o.effects && step == o.step && error == o.error
      ensures draft == old(draft) && selectedDate == old(selectedDate) && bookedSlots == old(bookedSlots)
    {
      SubmitKeepsDraftFit(step, draft, data, locale, patientReply, appointmentReply, clinicPhone);
      isSubmitting := true;
      error := None;
      effects, step, error := HandleConfirm(step, draft, data, locale, patientReply, appointmentReply, clinicPhone);
      isSubmitting := false;
    }
  }
}
