/** What the two booking wizards (components/BookingComponent.tsx and
    components/Booking/index.tsx) do with the server's answers: the booked
    slots a date fetch yields, and the whole of `handleConfirmBooking` as one
    function from the state, the submitted form and the server's replies to
    the calls made, the new step and the error shown. The server is not
    modelled: each call's reply is a parameter, `Ok` with the parsed body or
    `Err` with the message of the Error thrown. */
module Booking {
  import opened Wrappers
  import opened Strings
  import opened Json
  import I18n
  import Services
  import TimeSlots
  import opened BookingForm

  // ----------------------------------------------------------- wizard state

  /** What both wizards keep true: the step is one of the four, the service
      is empty or a catalog id, the time is empty or one of the slot labels,
      the form step has a time, and the success step has a date. */
  predicate DraftFitsStep(step: int, draft: Draft)
  {
    && 1 <= step <= 4
    && (draft.service == "" || draft.service in Services.CatalogIds())
    && (draft.time == "" || draft.time in TimeSlots.AllTimeSlots)
    && (step >= 3 ==> draft.time != "")
    && (step == 4 ==> draft.date.Some?)
  }

  const EmptyDraft: Draft := Draft("", None, "")

  // ----------------------------------------------------------- booked slots

  /** The only reply shapes the model follows: a `booked_slots` member that is
      truthy is an array. */
  predicate SlotsReplyModelled(reply: Result<Json>)
  {
    (reply.Ok? && Get(reply.value, "booked_slots").Some? && Truthy(Get(reply.value, "booked_slots").value))
      ==> Get(reply.value, "booked_slots").value.JArr?
  }

  /** `setBookedSlots(response.booked_slots || [])`, with the catch that
      answers [] to a failed fetch and to a `null` body. The string elements
      of the array are kept: `includes` compares with `===`, so no other
      element can ever match a slot label. */
  function BookedSlotsFrom(reply: Result<Json>): (r: seq<string>)
    requires SlotsReplyModelled(reply)
    ensures reply.Err? ==> r == []
    ensures reply.Ok? ==> match Get(reply.value, "booked_slots")
      case Some(JArr(items)) => forall x :: x in r <==> JStr(x) in items
      case _ => r == []
  {
    if reply.Err? then []
    else
      match Get(reply.value, "booked_slots")
      case Some(JArr(items)) => StringItems(items)
      case _ => []
  }

  function StringItems(items: seq<Json>): (r: seq<string>)
    ensures forall x :: x in r <==> JStr(x) in items
    decreases |items|
  {
    if |items| == 0 then []
    else
      var rest := StringItems(items[1..]);
      assert forall j :: j in items <==> j == items[0] || j in items[1..];
      match items[0]
      case JStr(s) => [s] + rest
      case _ => rest
  }

  /** A failed fetch fails open: every slot is offered. */
  lemma FailedFetchFreesAllSlots(message: string)
    ensures BookedSlotsFrom(Err(message)) == []
    ensures forall i :: 0 <= i < 12 ==> TimeSlots.AvailableSlots(BookedSlotsFrom(Err(message)))[i].available
  {
  }

  // ----------------------------------------------------------- submission

  datatype PatientData = PatientData(name: string, phone: string, email: string)

  /** The body of `createAppointment`. A `patientId` of None is `undefined`,
      which `JSON.stringify` leaves out. */
  datatype AppointmentPayload = AppointmentPayload(
    patientId: Option<Json>, service: string, appointmentDate: string,
    appointmentTime: string, status: string, notes: string)

  /** What a submission does outside the component, in order. */
  datatype Effect =
    | CreatePatient(patient: PatientData)
    | CreateAppointment(appointment: AppointmentPayload)
    /** `window.open` of the wa.me link for the clinic's phone; the number
        in the link's path is `WaMeNumber(clinicPhone)`. */
    | OpenWhatsApp(clinicPhone: string)

  /** The new step and error after `handleConfirmBooking`, with its effects. */
  datatype Outcome = Outcome(effects: seq<Effect>, step: int, error: Option<string>)

  const DefaultClinicPhone: string := "+201110215455"

  /** `process.env.NEXT_PUBLIC_CLINIC_PHONE || "+201110215455"`: the
      variable when it is set and not empty, the clinic's number otherwise;
      never empty. */
  function ClinicPhone(env: Option<string>): (r: string)
    ensures r != ""
    ensures env.Some? && env.value != "" ==> r == env.value
    ensures env.None? || env.value == "" ==> r == DefaultClinicPhone
  {
    if env.Some? && env.value != "" then env.value else DefaultClinicPhone
  }

  /** The number in the wa.me link: `clinicPhone.replace(/\D/g, "")`, the
      digits of the phone in their order. */
  function WaMeNumber(phone: string): (r: string)
    ensures AllDigits(r) && |r| <= |phone|
    ensures AllDigits(phone) ==> r == phone
  {
    KeepDigitsOfDigitsIf(phone);
    KeepDigits(phone)
  }

  lemma KeepDigitsOfDigitsIf(s: string)
    ensures AllDigits(s) ==> KeepDigits(s) == s
  {
    if AllDigits(s) {
      KeepDigitsOfDigits(s);
    }
  }

  /** A number written as "+" and digits reaches wa.me without the "+". */
  lemma {:induction false} WaMeDropsPlus(phone: string)
    requires |phone| > 0 && phone[0] == '+' && AllDigits(phone[1..])
    ensures WaMeNumber(phone) == phone[1..]
  {
    KeepDigitsDropsNonDigit(phone);
    KeepDigitsOfDigits(phone[1..]);
  }

  /** Without the variable the message goes to the clinic's own number. */
  lemma DefaultClinicPhoneDigits()
    ensures WaMeNumber(ClinicPhone(None)) == "201110215455"
  {
    var phone := ClinicPhone(None);
    assert phone[1..] == "201110215455" && phone[0] == '+';
    assert AllDigits(phone[1..]) by {
      forall i | 0 <= i < |phone[1..]| ensures IsDigit(phone[1..][i]) { }
    }
    WaMeDropsPlus(phone);
  }

  const ValidationMessageAr: string := "يرجى التأكد من اختيار التاريخ والوقت"
  const ValidationMessageEn: string := "Please make sure to select date and time"
  const ConflictMessageAr: string := "⚠️ عذراً، هذا الموعد تم حجزه للتو. يرجى اختيار وقت آخر."
  const ConflictMessageEn: string := "⚠️ Sorry, this time slot was just booked. Please select another time."

  function ValidationMessage(locale: I18n.Locale): string
  {
    match locale
    case Ar => ValidationMessageAr
    case En => ValidationMessageEn
  }

  function ConflictMessage(locale: I18n.Locale): string
  {
    match locale
    case Ar => ConflictMessageAr
    case En => ConflictMessageEn
  }

  /** The substring test that tells a taken slot from other failures. */
  predicate IsConflict(message: string)
  {
    Contains(message, "time slot") || Contains(message, "already booked")
  }

  /** The message of the TypeError that reading `.data` of a `null` reply raises. */
  const NullDataMessage: string := "Cannot read properties of null (reading 'data')"

  /** `patientResponse.data?.id || patientResponse.id`: the nested id when it
      is truthy, the top-level one otherwise (None being `undefined`). */
  function PatientIdOf(resp: Json): (r: Result<Option<Json>>)
    ensures r.Err? <==> resp.JNull?
    ensures r.Err? ==> r.message == NullDataMessage
    ensures r.Ok? ==> match NestedId(resp)
      case Some(id) => if Truthy(id) then r.value == Some(id) else r.value == Get(resp, "id")
      case None => r.value == Get(resp, "id")
  {
    if resp.JNull? then Err(NullDataMessage)
    else
      match NestedId(resp)
      case Some(id) => if Truthy(id) then Ok(Some(id)) else Ok(Get(resp, "id"))
      case None => Ok(Get(resp, "id"))
  }

  /** `patientResponse.data?.id`. */
  function NestedId(resp: Json): Option<Json>
  {
    match Get(resp, "data")
    case Some(data) => Get(data, "id")
    case None => None
  }

  /** A failed call: a conflict sends the wizard back to the slots with the
      localized conflict message; anything else keeps the step and shows
      the Error's own message. */
  function Failed(effects: seq<Effect>, step: int, message: string, locale: I18n.Locale): (o: Outcome)
    ensures o.effects == effects
    ensures IsConflict(message) ==> o.step == 2 && o.error == Some(ConflictMessage(locale))
    ensures !IsConflict(message) ==> o.step == step && o.error == Some(message)
  {
    if IsConflict(message) then Outcome(effects, 2, Some(ConflictMessage(locale)))
    else Outcome(effects, step, Some(message))
  }

  /** The appointment sent once the patient exists. */
  function Payload(patientId: Option<Json>, date: string, draft: Draft, data: Submission, locale: I18n.Locale): AppointmentPayload
  {
    AppointmentPayload(patientId, Services.ServiceName(locale, draft.service), date, draft.time,
      "pending", if data.notes != "" then data.notes else "")
  }

  /** The try block once the draft is complete: the calls made, in order,
      and the message of the one that failed, if any. */
  datatype Attempt = Attempt(effects: seq<Effect>, failure: Option<string>)

  function Calls(draft: Draft, data: Submission, locale: I18n.Locale,
                 patientReply: Result<Json>, appointmentReply: Result<Json>,
                 clinicPhone: Option<string>): Attempt
    requires draft.date.Some?
  {
    var patientCall := CreatePatient(PatientData(data.fullName, data.phone, data.email));
    match patientReply
    case Err(m) => Attempt([patientCall], Some(m))
    case Ok(resp) =>
      match PatientIdOf(resp)
      case Err(m) => Attempt([patientCall], Some(m))
      case Ok(pid) =>
        var calls := [patientCall, CreateAppointment(Payload(pid, draft.date.value, draft, data, locale))];
        match appointmentReply
        case Err(m) => Attempt(calls, Some(m))
        case Ok(_) => Attempt(calls + [OpenWhatsApp(ClinicPhone(clinicPhone))], None)
  }

  /** The try block run statement by statement, as both wizards do: each
      awaited call is recorded, and the first failure ends the block. */
  method RunCalls(draft: Draft, data: Submission, locale: I18n.Locale,
                  patientReply: Result<Json>, appointmentReply: Result<Json>,
                  clinicPhone: Option<string>) returns (effects: seq<Effect>, failure: Option<string>)
    requires draft.date.Some?
    ensures Attempt(effects, failure) == Calls(draft, data, locale, patientReply, appointmentReply, clinicPhone)
  {
    failure := None;
    var patientCall := CreatePatient(PatientData(data.fullName, data.phone, data.email));
    effects := [patientCall];
    match patientReply {
      case Err(m) =>
        failure := Some(m);
      case Ok(resp) =>
        var patientId := PatientIdOf(resp);
        if patientId.Err? {
          failure := Some(patientId.message);
        } else {
          effects := effects + [CreateAppointment(Payload(patientId.value, draft.date.value, draft, data, locale))];
          if appointmentReply.Err? {
            failure := Some(appointmentReply.message);
          } else {
            effects := effects + [OpenWhatsApp(ClinicPhone(clinicPhone))];
          }
        }
    }
  }

  /** The end of the try block (step 4) or the catch block. */
  function Settle(step: int, attempt: Attempt, locale: I18n.Locale): Outcome
  {
    match attempt.failure
    case None => Outcome(attempt.effects, 4, None)
    case Some(m) => Failed(attempt.effects, step, m, locale)
  }

  /** `handleConfirmBooking`: check the draft, create the patient, create the
      appointment, open WhatsApp, go to step 4; the catch classifies the
      failure of any call. */
  function Submit(step: int, draft: Draft, data: Submission, locale: I18n.Locale,
                  patientReply: Result<Json>, appointmentReply: Result<Json>,
                  clinicPhone: Option<string>): Outcome
  {
    if draft.date.None? || draft.time == "" then
      Outcome([], step, Some(ValidationMessage(locale)))
    else
      Settle(step, Calls(draft, data, locale, patientReply, appointmentReply, clinicPhone), locale)
  }

  /** The body of `handleConfirmBooking` on local variables: the early
      return of the validation, the try block, then the catch that tells a
      conflict from any other failure. The outcome is `Submit`'s. */
  method HandleConfirm(step: int, draft: Draft, data: Submission, locale: I18n.Locale,
                       patientReply: Result<Json>, appointmentReply: Result<Json>,
                       clinicPhone: Option<string>) returns (effects: seq<Effect>, newStep: int, error: Option<string>)
    ensures Outcome(effects, newStep, error) == Submit(step, draft, data, locale, patientReply, appointmentReply, clinicPhone)
  {
    newStep := step;
    error := None;
    effects := [];
    if draft.date.None? || draft.time == "" {
      error := Some(ValidationMessage(locale));
      return;
    }
    var failure;
    effects, failure := RunCalls(draft, data, locale, patientReply, appointmentReply, clinicPhone);
    assert Submit(step, draft, data, locale, patientReply, appointmentReply, clinicPhone)
        == Settle(step, Attempt(effects, failure), locale);
    if failure.None? {
      newStep := 4;
    } else {
      var m := failure.value;
      if IsConflict(m) {
        error := Some(ConflictMessage(locale));
        newStep := 2;
      } else {
        error := Some(m);
      }
      assert Settle(step, Attempt(effects, failure), locale) == Failed(effects, step, m, locale);
    }
  }

  /** Without a date or a time nothing is sent: the step stays and the
      validation message is shown. */
  lemma SubmitWithoutDateOrTime(step: int, draft: Draft, data: Submission, locale: I18n.Locale,
                                pr: Result<Json>, ar: Result<Json>, env: Option<string>)
    requires draft.date.None? || draft.time == ""
    ensures Submit(step, draft, data, locale, pr, ar, env) == Outcome([], step, Some(ValidationMessage(locale)))
  {
  }

  /** When both calls succeed the wizard reaches step 4 with no error, having
      created the patient from the form, then a pending appointment for the
      draft's date and time under the localized service name, then opened
      WhatsApp for the clinic's phone (`DefaultClinicPhoneDigits` gives the
      link's number without the variable). */
  lemma {:induction false} SubmitSuccess(step: int, draft: Draft, data: Submission, locale: I18n.Locale,
                       resp: Json, ar: Json, env: Option<string>)
    requires draft.date.Some? && draft.time != "" && !resp.JNull?
    ensures var o := Submit(step, draft, data, locale, Ok(resp), Ok(ar), env);
      && o.step == 4 && o.error.None? && |o.effects| == 3
      && o.effects[0] == CreatePatient(PatientData(data.fullName, data.phone, data.email))
      && o.effects[1].CreateAppointment?
      && o.effects[1].appointment.status == "pending"
      && o.effects[1].appointment.appointmentDate == draft.date.value
      && o.effects[1].appointment.appointmentTime == draft.time
      && o.effects[1].appointment.service == Services.ServiceName(locale, draft.service)
      && o.effects[1].appointment.notes == data.notes
      && o.effects[1].appointment.patientId == PatientIdOf(resp).value
      && o.effects[2] == OpenWhatsApp(ClinicPhone(env))
  {
    var o := Submit(step, draft, data, locale, Ok(resp), Ok(ar), env);
    assert PatientIdOf(resp).Ok?;
  }

  /** The calls made form a prefix of patient, appointment, WhatsApp, each
      one made only after the previous succeeded; no failure means all
      three were made. */
  lemma {:induction false} CallsShape(draft: Draft, data: Submission, locale: I18n.Locale,
                   pr: Result<Json>, ar: Result<Json>, env: Option<string>)
    requires draft.date.Some?
    ensures var a := Calls(draft, data, locale, pr, ar, env);
      && 1 <= |a.effects| <= 3
      && a.effects[0].CreatePatient?
      && (|a.effects| > 1 ==> a.effects[1].CreateAppointment? && pr.Ok?)
      && (a.failure.None? <==> |a.effects| == 3)
      && (|a.effects| == 3 ==> a.effects[2].OpenWhatsApp? && ar.Ok?)
  {
    var patientCall := CreatePatient(PatientData(data.fullName, data.phone, data.email));
    if pr.Err? || PatientIdOf(pr.value).Err? {
      assert Calls(draft, data, locale, pr, ar, env).effects == [patientCall];
    } else {
      var calls := [patientCall, CreateAppointment(Payload(PatientIdOf(pr.value).value, draft.date.value, draft, data, locale))];
      if ar.Err? {
        assert Calls(draft, data, locale, pr, ar, env) == Attempt(calls, Some(ar.message));
      } else {
        assert Calls(draft, data, locale, pr, ar, env) == Attempt(calls + [OpenWhatsApp(ClinicPhone(env))], None);
      }
    }
  }

  /** Every outcome: the step is kept, becomes 2 after a conflict, or becomes
      4 exactly when there is no error; the calls made are a prefix of
      patient, appointment, WhatsApp; WhatsApp is opened only on success. */
  lemma {:induction false} SubmitOutcomes(step: int, draft: Draft, data: Submission, locale: I18n.Locale,
                        pr: Result<Json>, ar: Result<Json>, env: Option<string>)
    requires step != 4
    ensures var o := Submit(step, draft, data, locale, pr, ar, env);
      && (o.step == step || o.step == 2 || o.step == 4)
      && (o.step == 4 <==> o.error.None?)
      && |o.effects| <= 3
      && (|o.effects| > 0 ==> o.effects[0].CreatePatient?)
      && (|o.effects| > 1 ==> o.effects[1].CreateAppointment? && pr.Ok?)
      && (o.step == 4 <==> |o.effects| == 3)
      && (|o.effects| == 3 ==> o.effects[2].OpenWhatsApp? && ar.Ok?)
      && (o.step == 4 ==> draft.date.Some? && draft.time != "")
  {
    if draft.date.Some? && draft.time != "" {
      var a := Calls(draft, data, locale, pr, ar, env);
      CallsShape(draft, data, locale, pr, ar, env);
      assert Submit(step, draft, data, locale, pr, ar, env) == Settle(step, a, locale);
      if a.failure.Some? {
        assert Settle(step, a, locale) == Failed(a.effects, step, a.failure.value, locale);
      }
    }
  }

  /** Submitting from the form keeps what both wizards keep true between
      handlers: the new step still fits the unchanged draft. */
  lemma SubmitKeepsDraftFit(step: int, draft: Draft, data: Submission, locale: I18n.Locale,
                            pr: Result<Json>, ar: Result<Json>, env: Option<string>)
    requires step == 3 && DraftFitsStep(step, draft)
    ensures DraftFitsStep(Submit(step, draft, data, locale, pr, ar, env).step, draft)
  {
    SubmitOutcomes(step, draft, data, locale, pr, ar, env);
  }

  /** A failure whose message mentions "time slot" or "already booked" sends
      the wizard back to step 2; any other failure keeps the step and shows
      the failure's message. */
  lemma {:induction false} SubmitFailureClassified(step: int, draft: Draft, data: Submission, locale: I18n.Locale,
                                 m: string, ar: Result<Json>, env: Option<string>)
    requires draft.date.Some? && draft.time != ""
    ensures var o := Submit(step, draft, data, locale, Err(m), ar, env);
      (IsConflict(m) ==> o.step == 2 && o.error == Some(ConflictMessage(locale))) &&
      (!IsConflict(m) ==> o.step == step && o.error == Some(m)) &&
      |o.effects| == 1
  {
    var patientCall := CreatePatient(PatientData(data.fullName, data.phone, data.email));
    assert Calls(draft, data, locale, Err(m), ar, env) == Attempt([patientCall], Some(m));
    assert Submit(step, draft, data, locale, Err(m), ar, env) == Failed([patientCall], step, m, locale);
  }

  /** The same classification for a failed appointment call, the usual way a
      slot taken in the meantime surfaces. */
  lemma {:induction false} AppointmentConflictGoesBack(step: int, draft: Draft, data: Submission, locale: I18n.Locale,
                                     resp: Json, m: string, env: Option<string>)
    requires draft.date.Some? && draft.time != "" && !resp.JNull?
    requires IsConflict(m)
    ensures Submit(step, draft, data, locale, Ok(resp), Err(m), env).step == 2
    ensures Submit(step, draft, data, locale, Ok(resp), Err(m), env).error == Some(ConflictMessage(locale))
    ensures |Submit(step, draft, data, locale, Ok(resp), Err(m), env).effects| == 2
  {
    assert PatientIdOf(resp).Ok?;
  }
}
