/** The booking wizard of components/Booking/index.tsx. It differs from the
    one in components/BookingComponent.tsx in three ways:
    - the slot fetch is split in two, with `isLoadingSlots` set while the
      fetch is outstanding;
    - step 2 has no back or continue button: picking a slot goes straight to
      the form;
    - step 4's success view, `BookingSuccess`, shows the localized service
      name (the other wizard's success view, which shows the raw service id,
      is not modelled).
    Each handler is one atomic method, and the server's replies are
    parameters. */
module BookingFlow {
  import opened Wrappers
  import opened Json
  import I18n
  import Services
  import TimeSlots
  import opened BookingForm
  import opened Booking

  /** What the success view of step 4 shows: the localized service name, the
      date (empty without one) and the time. */
  datatype SuccessView = SuccessView(serviceName: string, date: string, time: string)

  /** `serviceNames[locale][booking.service] || booking.service`, with the
      date and the time of the draft. */
  function Success(locale: I18n.Locale, draft: Draft): SuccessView
  {
    SuccessView(Services.ServiceName(locale, draft.service),
      if draft.date.Some? then draft.date.value else "", draft.time)
  }

  /** The success view repeats what the appointment sent to the server holds:
      the same service name, date and time. */
  lemma {:induction false} SuccessMatchesAppointment(step: int, draft: Draft, data: Submission, locale: I18n.Locale,
                                   pr: Result<Json>, ar: Result<Json>, env: Option<string>)
    requires step != 4
    requires Submit(step, draft, data, locale, pr, ar, env).step == 4
    ensures var o := Submit(step, draft, data, locale, pr, ar, env);
      && |o.effects| == 3 && o.effects[1].CreateAppointment?
      && Success(locale, draft).serviceName == o.effects[1].appointment.service
      && Success(locale, draft).date == o.effects[1].appointment.appointmentDate
      && Success(locale, draft).time == o.effects[1].appointment.appointmentTime
      && o.effects[1].appointment.status == "pending"
  {
    SubmitOutcomes(step, draft, data, locale, pr, ar, env);
    var patientCall := CreatePatient(PatientData(data.fullName, data.phone, data.email));
    var resp := pr.value;
    assert PatientIdOf(resp).Ok?;
    var payload := Payload(PatientIdOf(resp).value, draft.date.value, draft, data, locale);
    assert Calls(draft, data, locale, pr, ar, env).effects
        == [patientCall, CreateAppointment(payload), OpenWhatsApp(ClinicPhone(env))];
  }

  class Flow {
    var step: int
    var draft: Draft
    var selectedDate: Option<string>
    var isSubmitting: bool
    var error: Option<string>
    var bookedSlots: seq<string>
    var isLoadingSlots: bool
    const locale: I18n.Locale

    /** Between two handlers the draft fits the step, no submission is
        running, and a slot fetch can be outstanding only on step 2 (nothing
        leads away from step 2 while the grid is empty). */
    predicate Valid()
      reads this
    {
      DraftFitsStep(step, draft) && !isSubmitting && (isLoadingSlots ==> step == 2)
    }

    /** The grid `DateTimeSelector` renders from the component's state. */
    function Buttons(): seq<TimeSlots.SlotButton>
      reads this
    {
      TimeSlots.SlotButtons(isLoadingSlots, bookedSlots)
    }

    constructor(locale: I18n.Locale)
      ensures Valid()
      ensures this.locale == locale
      ensures step == 1 && draft == EmptyDraft && selectedDate.None?
      ensures error.None? && bookedSlots == [] && !isLoadingSlots
    {
      this.locale := locale;
      step := 1;
      draft := EmptyDraft;
      selectedDate := None;
      isSubmitting := false;
      error := None;
      bookedSlots := [];
      isLoadingSlots := false;
    }

    /** `handleSelectService`: record the id and go to step 2. */
    method SelectService(i: nat)
      requires Valid() && step == 1 && i < |Services.Catalog|
      modifies this
      ensures Valid()
      ensures draft == old(draft).(service := Services.Catalog[i].id) && step == 2
      ensures selectedDate == old(selectedDate) && error == old(error)
      ensures bookedSlots == old(bookedSlots) && isLoadingSlots == old(isLoadingSlots)
    {
      assert Services.CatalogIds()[i] == Services.Catalog[i].id;
      draft := draft.(service := Services.Catalog[i].id);
      step := 2;
    }

    /** The part of `handleSelectDate` before the await. It records the
        selection; a defined date also goes into the draft and starts the
        fetch of its booked slots. */
    method StartDateSelection(date: Option<string>)
      requires Valid() && step == 2
      modifies this
      ensures Valid()
      ensures selectedDate == date
      ensures date.Some? ==> draft == old(draft).(date := date) && isLoadingSlots
      ensures date.None? ==> draft == old(draft) && isLoadingSlots == old(isLoadingSlots)
      ensures step == old(step) && error == old(error) && bookedSlots == old(bookedSlots)
    {
      selectedDate := date;
      if date.Some? {
        draft := draft.(date := date);
        isLoadingSlots := true;
      }
    }

    /** The part after the await: the reply's booked slots (none when the
        fetch failed), then the `finally` that ends the loading. */
    method SlotsArrived(reply: Result<Json>)
      requires Valid() && isLoadingSlots && SlotsReplyModelled(reply)
      modifies this
      ensures Valid() && !isLoadingSlots
      ensures bookedSlots == BookedSlotsFrom(reply)
      ensures reply.Err? ==> forall k :: 0 <= k < 12 ==> !Buttons()[k].disabled
      ensures step == old(step) && draft == old(draft)
      ensures selectedDate == old(selectedDate) && error == old(error)
    {
      if reply.Err? {
        bookedSlots := [];
      } else {
        bookedSlots := BookedSlotsFrom(reply);
      }
      isLoadingSlots := false;
    }

    /** `handleSelectTime`, reached through slot button `i`. A disabled
        button does nothing; an enabled one records its label and goes to
        the form. There are no buttons while the slots load. */
    method ClickSlot(i: nat)
      requires Valid() && step == 2 && i < |Buttons()|
      modifies this
      ensures Valid()
      ensures !old(isLoadingSlots)
      ensures !old(Buttons()[i].disabled) ==>
        draft == old(draft).(time := TimeSlots.AllTimeSlots[i]) && step == 3 &&
        TimeSlots.AllTimeSlots[i] !in bookedSlots
      ensures old(Buttons()[i].disabled) ==> draft == old(draft) && step == old(step)
      ensures selectedDate == old(selectedDate) && error == old(error)
      ensures bookedSlots == old(bookedSlots) && isLoadingSlots == old(isLoadingSlots)
    {
      TimeSlots.NoEmptyLabel();
      TimeSlots.ClickNeverSelectsBooked(isLoadingSlots, bookedSlots, i);
      var clicked := TimeSlots.Click(Buttons(), i);
      if clicked.Some? {
        assert clicked.value == TimeSlots.AllTimeSlots[i];
        assert clicked.value in TimeSlots.AllTimeSlots && clicked.value != "";
        draft := draft.(time := clicked.value);
        step := 3;
      }
    }

    /** The form's back button. */
    method BackToDateTime()
      requires Valid() && step == 3
      modifies this
      ensures Valid() && step == 2
      ensures draft == old(draft) && selectedDate == old(selectedDate) && error == old(error)
      ensures bookedSlots == old(bookedSlots) && isLoadingSlots == old(isLoadingSlots)
    {
      step := 2;
    }

    /** `handleConfirmBooking`. The new step and error are those of `Submit`
        and the calls made are returned. The draft and the slots are kept,
        and `isSubmitting` ends false whatever happened. */
    method ConfirmBooking(data: Submission, patientReply: Result<Json>, appointmentReply: Result<Json>,
                          clinicPhone: Option<string>) returns (effects: seq<Effect>)
      requires Valid() && step == 3
      modifies this
      ensures Valid() && !isSubmitting
      ensures var o := Submit(old(step), old(draft), data, locale, patientReply, appointmentReply, clinicPhone);
        effects == o.effects && step == o.step && error == o.error
      ensures draft == old(draft) && selectedDate == old(selectedDate)
      ensures bookedSlots == old(bookedSlots) && isLoadingSlots == old(isLoadingSlots)
    {
      SubmitKeepsDraftFit(step, draft, data, locale, patientReply, appointmentReply, clinicPhone);
      isSubmitting := true;
      error := None;
      effects, step, error := HandleConfirm(step, draft, data, locale, patientReply, appointmentReply, clinicPhone);
      isSubmitting := false;
    }

    /** The success view of step 4. */
    function View(): SuccessView
      reads this
    {
      Success(locale, draft)
    }
  }
}
