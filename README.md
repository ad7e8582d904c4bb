# Dental clinic site: booking, admin and locale logic in Dafny

This project models the logic of a bilingual (Arabic and English) dental-clinic
website built with Next.js, and proves properties of that model. It covers:

- **Booking wizards.** There are two: `components/BookingComponent.tsx` and
  `components/Booking/index.tsx`. The model covers their steps, the draft of
  service, date and time, and the twelve half-hour slots with their availability.
  It also covers the submission: validate the draft, create the patient, create
  a pending appointment, open WhatsApp, then sort failures into "slot taken"
  and everything else.
- **The details form.** This is the phone and e-mail patterns, the required
  fields, and the record it hands to the wizard. The form's rules take the
  phone pattern's operator class as a parameter. The form registers the class
  as written, comma included; the class it means is the corrected one under
  "Findings".
- **The progress bar and the service catalog** with its two per-locale name
  tables.
- **The admin dashboards** (`components/AdminDashboard.tsx` and
  `components/Admin/Dashboard.tsx`): statistics, the status filter, status
  updates and deletion.
- **Locale routing.** The middleware's pass-through test, the Accept-Language
  choice and the redirect. Also the locale check in `i18n.ts`, and the
  language switcher's path rewrite.
- **The translation context.** The message tree per locale, and the dotted-key
  lookup `t`.
- **The REST client** `lib/api.ts`: headers, URLs, verbs and bodies, and the
  error each endpoint throws.
- **Small stateful widgets:** the testimonials carousel, the FAQ accordion and
  the treatments tabs.

How the source's shapes map into Dafny:

- Components whose state changes are classes. Each handler is one method whose
  `ensures` states the whole new state.
- Pure derivations (slot availability, filters, statistics, message choice)
  are functions with lemmas about them.
- The server, `fetch`, the router, `window.open`, `confirm` and the clock are
  outside the model. Their answers are parameters: a `Result` carrying the
  parsed reply, or the message of the Error thrown. Effects such as the calls
  made are returned as data.
- Dates arrive already formatted as `yyyy-MM-dd` strings.

Modules: `Wrappers`, `Strings`, `Json` and `Lists` are helpers. The rest
follow the source: `I18n`, `Middleware`, `Translation`, `Api`, `TimeSlots`,
`Services`, `BookingForm`, `BookingProgress`, `Booking`, `BookingWizard`,
`BookingFlow`, `Admin`, `Carousel`, `Faq`, `LanguageSwitcher` and `Treatments`.
`Booking` is the part both wizards share.

## Model

| member | source | states |
|---|---|---|
| I18n.ValidLocalesAreArAndEn | i18n.ts:4-10 | a locale is valid iff it is "ar" or "en"; the default "ar" is valid |
| I18n.ParseLocale | i18n.ts:8-10 | a code parses iff it is valid, and the parsed locale's code is the input |
| I18n.GetRequestConfig | i18n.ts:12-19 | notFound exactly for invalid locales; otherwise the messages module named after the locale |
| I18n.OnlyTwoMessageModules | i18n.ts:14-17 | only `./messages/ar.json` and `./messages/en.json` are ever loaded |
| Middleware.HasLocale | middleware.ts:18-20 | definition: `pathnameHasLocale`, some locale l with the path starting with "/l/" or equal to "/l" (its cases: `HasLocaleCases`) |
| Middleware.HasLocaleCases | middleware.ts:18-20 | a path has a locale iff it is "/ar" or "/en" or starts with "/ar/" or "/en/" |
| Middleware.PreferredLocale | middleware.ts:25-28 | the chosen locale is always supported; no header gives "ar" |
| Middleware.PreferredLocaleChoice | middleware.ts:25-28 | the choice is the first comma item's part before '-', when supported, else "ar" |
| Middleware.FirstFieldBefore | middleware.ts:26 | splitting at a separator keeps the text before its first occurrence |
| Middleware.TagBeforeRegion | middleware.ts:26-28 | a header "tag-region,…" selects the tag when supported, else "ar" |
| Middleware.PreferredLocaleExamples | middleware.ts:26-28 | "en-US,en;q=0.9" selects "en"; "fr-FR,fr" falls back to "ar" |
| Middleware.GetLocalizedRedirect | middleware.ts:7-12 | null iff the path starts with "/ar" or "/en" as a plain prefix; else "/" + locale + path |
| Middleware.ResolveRelative | middleware.ts:31-34 | definition: `new URL(ref, request.url)` for a reference without a leading '/': the request path up to its last '/', then the reference |
| Middleware.LastSegmentDirectory | middleware.ts:31-34 | the base a relative URL resolves against is a prefix of the request path |
| Middleware.EnglishRedirectsToNull | middleware.ts:31-34 | as written, "/english" has no locale, the redirect helper answers null, and the request goes to "/null" |
| Middleware.SingleSegmentDirectory | middleware.ts:31-34 | a one-segment path resolves relative references against "/" |
| Middleware.AsWrittenRedirectsToNull | middleware.ts:31-34 | every path starting with "/ar" or "/en" without a locale gets a "null" segment, as written |
| Middleware.MiddlewareAsWritten | middleware.ts:14-36 | definition: the middleware as written, a null redirect target resolving as the relative reference "null" (its properties: `EnglishRedirectsToNull`, `AsWrittenRedirectsToNull`, `AsWrittenAgreesElsewhere`) |
| Middleware.Middleware | middleware.ts:14-36 | corrected: a request passes iff its path has a locale; otherwise it is redirected to "/" + chosen locale + path |
| Middleware.RedirectTargetPasses | middleware.ts:31-35 | the corrected redirect lands on a path that then passes, so nothing is redirected twice |
| Middleware.AsWrittenAgreesElsewhere | middleware.ts:7-12 | the as-written and corrected middleware agree on every path outside the "/ar…"/"/en…" gap |
| Translation.SelectMessages | context/TranslationContext.tsx:28-29 | English messages iff the locale is "en"; Arabic for every other locale |
| Translation.Step | context/TranslationContext.tsx:36-37 | one segment is followed only from an object or array that has it |
| Translation.Walk | context/TranslationContext.tsx:35-41 | definition: the value the loop reaches along the segments, None on an early return |
| Translation.Translate | context/TranslationContext.tsx:31-44 | definition: the string the walk of `key.split(".")` ends on, else the key (its properties: the `Translate*` lemmas) |
| Translation.WalkAppend | context/TranslationContext.tsx:35-41 | walking a path in two pieces is walking one piece after the other |
| Translation.T | context/TranslationContext.tsx:31-44 | the loop over the key's segments, with its early return, answers `Translate` |
| Translation.TranslateFound | context/TranslationContext.tsx:43 | a walk ending on a string yields that string |
| Translation.TranslateMissingSegment | context/TranslationContext.tsx:36-39 | a segment missing anywhere along the walk yields the key |
| Translation.TranslateNonString | context/TranslationContext.tsx:43 | a walk ending on a non-string yields the key |
| Translation.TranslateKeyOrText | context/TranslationContext.tsx:31-44 | `t` is total, and answers either the key or a string found in the tree |
| Translation.TranslateTopLevel | context/TranslationContext.tsx:32-43 | a key without '.' names a top-level string member |
| Translation.TranslateTwoLevels | context/TranslationContext.tsx:32-43 | "a.b" resolves to member b of the object at a |
| Translation.SplitTwo | context/TranslationContext.tsx:32 | "a.b" splits into ["a", "b"] when neither part holds '.' |
| Translation.UseTranslation | context/TranslationContext.tsx:53-59 | outside a provider the hook fails with its message; inside it gives the provider's context |
| Api.BaseUrl | lib/api.ts:1-2 | the configured URL when non-empty, else http://localhost:8000/api/v1 |
| Api.AdminHeaderMap | lib/api.ts:5-16 | Accept and Content-Type are application/json; X-Admin-Token is present iff the token is non-empty, with its value; no other header |
| Api.AdminHeaders | lib/api.ts:5-16 | building the record step by step yields exactly that header map |
| Api.RequestFor | lib/api.ts:18-201 | each endpoint's URL is base + its path; verb as declared; headers on all but the health check; a JSON body exactly for create and update |
| Api.Path | lib/api.ts:18-201 | definition: the path of each endpoint, the booked-slots date appended unencoded (its property: `UrlShape`) |
| Api.Verb | lib/api.ts:18-201 | definition: the method of each endpoint: POST for the creates and the token check, PUT for updates, DELETE for deletes, GET otherwise |
| Api.FixedFailure | lib/api.ts:18-201 | definition: the fixed text each endpoint throws on a non-ok reply (its property: `FixedFailureIgnoresBody`) |
| Api.ErrorData | lib/api.ts:51 | definition: `response.json().catch(() => ({}))`, an unparsable error body reading as `{}` |
| Api.MessageField | lib/api.ts:54 | definition: `errorData.message` as a string when truthy, None when falsy or absent, the TypeError of reading it on `null` |
| Api.CreatePatientFailureAsWritten | lib/api.ts:53-57 | definition: the chain of `message`, then `JSON.stringify(errorData)`, then "Failed to create patient", each taken when truthy (its property: `CreatePatientFallbackUnreachable`) |
| Api.UrlShape | lib/api.ts:182-184 | every URL starts with the base; the booked-slots URL is base + "/appointments/booked-slots?date=" + date, unencoded |
| Api.CreatePatientFallbackUnreachable | lib/api.ts:50-57 | without a truthy message the error is the dump of the error body, so the fixed text is never used; the message is non-empty unless `message` is an array |
| Api.TruthyTextNonEmpty | lib/api.ts:54 | `String(v)` of a truthy non-array value is never empty |
| Api.CreateAppointmentFailure | lib/api.ts:123-128 | the server's truthy message when present, else "Failed to create appointment" |
| Api.FixedFailureIgnoresBody | lib/api.ts:18-201 | every other endpoint throws its fixed message whatever the error body |
| Api.FailureMessage | lib/api.ts:18-201 | definition: the message of a non-ok reply per endpoint — the `message || dump` chain for patients, `message || fixed text` for appointments, fixed text otherwise |
| Api.Call | lib/api.ts:18-201 | a rejected fetch passes its error on; non-ok throws the endpoint's message; ok yields the parsed body |
| Api.BookedSlotsFailureFailsOpen | lib/api.ts:189 | a non-ok booked-slots reply throws "Failed to fetch booked slots", which the wizards turn into no booked slots |
| Json.Truthy | lib/api.ts:54 | definition: JavaScript truthiness of a parsed value, as the logical-or operator reads it |
| Json.Get | lib/api.ts:54 | definition: `value.key`, the last member with the key in an object, `undefined` elsewhere |
| Json.ToJsString | lib/api.ts:53-57 | definition: `String(value)`, the text `new Error` keeps (its property: `Api.TruthyTextNonEmpty`) |
| Json.Stringify | lib/api.ts:48 | definition: `JSON.stringify` with string escaping, one member per key (first position, last value) |
| Json.StringifyNonEmpty | lib/api.ts:55 | `JSON.stringify` of a parsed value is never the empty string |
| Json.UnescapeEscape | lib/api.ts:48 | reading an escaped string back as `JSON.parse` does gives the original string, for every string |
| Json.EscapePlain | lib/api.ts:48 | a string without quotes, backslashes or control characters is written unchanged |
| Json.EscapePrintable | lib/api.ts:48 | the escaped text holds no control character, so a newline is sent as `\n` |
| Json.KeptMembers | lib/api.ts:55 | each kept member is printed at the first position of its key, which no earlier member shares, and takes the value of a later or equal position with the same key |
| Json.DistinctKeysPrintInOrder | lib/api.ts:48 | with distinct keys, every member is kept once, in order, with its own value |
| Json.DuplicateKeyPrintedOnce | lib/api.ts:55 | `{"a":1,"a":2}` is dumped as `{"a":2}` |
| Lists.Filter | components/AdminDashboard.tsx:79 | the kept elements are exactly those satisfying the predicate |
| Lists.FilterAppend | components/AdminDashboard.tsx:79 | filtering distributes over concatenation, so order is kept |
| TimeSlots.AllTimeSlotsDistinct | components/Booking/DateTimeSelector.tsx:24-37 | twelve distinct labels, 09:00 AM to 11:30 AM then 02:00 PM to 04:30 PM |
| TimeSlots.NoEmptyLabel | components/Booking/DateTimeSelector.tsx:24-37 | no slot label is empty |
| TimeSlots.MarkSlots | components/Booking/DateTimeSelector.tsx:49-52 | same length and order as the labels; available iff not booked |
| TimeSlots.AvailableSlots | components/Booking/DateTimeSelector.tsx:49-52 | the twelve labels in order, each available iff not in the booked list |
| TimeSlots.AvailabilityMonotone | components/Booking/DateTimeSelector.tsx:51 | booking more labels never frees a slot |
| TimeSlots.LabelsOutsideUniverseIgnored | components/Booking/DateTimeSelector.tsx:51 | booked entries that are no slot label change nothing |
| TimeSlots.MarkSlotsIgnoresOthers | components/Booking/DateTimeSelector.tsx:51 | the same for any label list |
| TimeSlots.NothingBookedAllAvailable | components/Booking/DateTimeSelector.tsx:49-52 | with nothing booked all twelve slots are free |
| TimeSlots.SlotButtons | components/Booking/DateTimeSelector.tsx:86-99 | no buttons while loading; otherwise twelve, each disabled iff its slot is booked |
| TimeSlots.Grid | components/Booking/DateTimeSelector.tsx:93-99 | one button per label, disabled iff the label is booked |
| TimeSlots.Buttons | components/Booking/DateTimeSelector.tsx:93-99 | one button per slot, disabled iff the slot is unavailable |
| TimeSlots.Click | components/Booking/DateTimeSelector.tsx:96-99 | a click is delivered iff the button is enabled, and carries its label |
| TimeSlots.ClickNeverSelectsBooked | components/Booking/DateTimeSelector.tsx:86-99 | a delivered click means the grid was not loading, and the label chosen is a slot not booked |
| Services.CatalogIds | components/Booking/ServiceSelector.tsx:35-38 | `onSelect` receives exactly the catalog ids, in order |
| Services.CatalogWellFormed | components/Booking/ServiceSelector.tsx:19-26 | six services, distinct ids, every name key starts with "booking.service" |
| Services.ServiceNames | components/Booking/index.tsx:34-51 | definition: the name table of the component's locale (its properties: `TablesMatchCatalog`, `TableKeys`, `TableNames`) |
| Services.TablesMatchCatalog | components/Booking/index.tsx:35-51 | both name tables have exactly the catalog ids as keys, with non-empty names |
| Services.TableKeys | components/Booking/index.tsx:35-51 | the keys of each table are the catalog ids |
| Services.TableNames | components/Booking/index.tsx:35-51 | no table maps an id to an empty name |
| Services.ServiceName | components/Booking/index.tsx:113-115 | definition: `serviceNames[locale][id] || id` |
| Services.ServiceNameLookup | components/Booking/index.tsx:113-115 | a catalog id gets its localized name; any other id is sent as it is |
| Services.CatalogServicesNamed | components/Booking/index.tsx:113-115 | the name differs from the id iff the id is a catalog id |
| BookingForm.EmailCheckIff | components/BookingForm.tsx:156 | a left-to-right reading accepts exactly the strings the e-mail pattern matches |
| BookingForm.EmailPatternChecked | components/BookingForm.tsx:156 | a match of the pattern passes the reading |
| BookingForm.EmailCheckMatches | components/BookingForm.tsx:156 | a value passing the reading matches the pattern |
| BookingForm.ValidEmailShape | components/BookingForm.tsx:156 | a valid e-mail holds exactly one '@' and no whitespace |
| BookingForm.EmailExamples | components/BookingForm.tsx:156 | "a@b.c" is valid; "a@b", "@b.c" and "a b@c.d" are not |
| BookingForm.PhoneCommaAccepted | components/BookingForm.tsx:126 | the written pattern accepts "01,12345678"; the intended rule refuses it |
| BookingForm.PhonePatternByLength | components/BookingForm.tsx:126 | the pattern holds iff the optional prefix is "", "0" or "+20" and the last ten characters form `1[codes]\d{8}` |
| BookingForm.CommaOnlyAtOperator | components/BookingForm.tsx:126 | in a value the written rule accepts, a comma can only stand in the operator position |
| BookingForm.PhoneRulesDifferOnlyByComma | components/BookingForm.tsx:126 | the intended rule is the written rule minus the values holding a comma |
| BookingForm.ValidPhoneShape | components/BookingForm.tsx:126 | a valid phone has 10, 11 or 13 characters and ends in a national number |
| BookingForm.LocalNumberValid | components/BookingForm.tsx:126 | "01", an operator code and eight digits is valid |
| BookingForm.InternationalNumberValid | components/BookingForm.tsx:126 | "+201", an operator code and eight digits is valid |
| BookingForm.LocalPhoneExample | components/BookingForm.tsx:126 | "01012345678" is valid |
| BookingForm.InternationalPhoneExample | components/BookingForm.tsx:126 | "+201512345678" is valid |
| BookingForm.UnknownOperatorExample | components/BookingForm.tsx:126 | "01312345678" is refused |
| BookingForm.NameError | components/BookingForm.tsx:95-97 | the name rule reports fullNameRequired iff the value is empty |
| BookingForm.IsValidEmail | components/BookingForm.tsx:156 | definition: the e-mail pattern as a predicate (its properties are the lemmas above) |
| BookingForm.IsValidPhoneAsWritten | components/BookingForm.tsx:126 | definition: the phone pattern with the class as written, comma included |
| BookingForm.IsValidPhone | components/BookingForm.tsx:126 | definition: the phone pattern with the class the form means, 0, 1, 2, 5 and 6 |
| BookingForm.PhoneError | components/BookingForm.tsx:123-128 | for an operator class: empty gives phoneRequired; otherwise no error iff the pattern with that class matches, else phoneInvalid; the form registers the class as written |
| BookingForm.EmailError | components/BookingForm.tsx:153-158 | empty gives emailRequired; otherwise no error iff the e-mail is valid, else emailInvalid |
| BookingForm.Validate | components/BookingForm.tsx:95-183 | definition: the three rules' errors for an operator class; notes have no rule |
| BookingForm.AcceptedIff | components/BookingForm.tsx:95-183 | for any operator class, the form is accepted iff the name is non-empty, the phone matches the pattern with that class and the e-mail is valid; notes never matter |
| BookingForm.FormAcceptsCommaPhone | components/BookingForm.tsx:123-128 | the form as written accepts name "a", phone "01,12345678", e-mail "a@b.c"; with the intended class it refuses them |
| BookingForm.IntendedFormDiffersOnlyByComma | components/BookingForm.tsx:123-128 | the intended form accepts exactly what the written form accepts, minus phones holding a comma |
| BookingForm.OnFormSubmit | components/BookingForm.tsx:35-69 | the record keeps every form field and adds the localized service, the date ("" without one) and the draft's time |
| BookingForm.HandleSubmit | components/BookingForm.tsx:81 | for an operator class (the form's own is the class as written): submission happens iff the form is accepted, with the `onFormSubmit` record; otherwise the rules' errors |
| BookingForm.FormButtons | components/BookingForm.tsx:222-231 | back and submit are disabled exactly while submitting |
| BookingProgress.Steps | components/Booking/BookingProgress.tsx:14-19 | four steps numbered 1 to 4, each labelled by the translation of its key |
| BookingProgress.HeaderLabel | components/Booking/BookingProgress.tsx:32 | a header label exists iff the step is 1 to 4, and it is that step's label |
| BookingProgress.Circles | components/Booking/BookingProgress.tsx:37-47 | circle n is highlighted iff step >= n and shows a check iff step > n |
| BookingProgress.CirclesFillFromTheLeft | components/Booking/BookingProgress.tsx:41-46 | every checked circle is highlighted, and the highlighted circles are a prefix |
| BookingProgress.CountFrom | components/Booking/BookingProgress.tsx:37-47 | a count of circles never exceeds the circles counted |
| BookingProgress.CountsFollowStep | components/Booking/BookingProgress.tsx:41-46 | at step s, exactly s (clamped to 0..4) circles are highlighted and s - 1 checked |
| BookingProgress.CountBelow | components/Booking/BookingProgress.tsx:41-46 | counting circles marked exactly below a bound gives the clamped bound |
| Booking.BookedSlotsFrom | components/BookingComponent.tsx:80-87 | a failed fetch gives no booked slots; otherwise the string items of `booked_slots`, or none without it |
| Booking.StringItems | components/BookingComponent.tsx:83 | the kept items are exactly the array's strings |
| Booking.FailedFetchFreesAllSlots | components/BookingComponent.tsx:84-87 | a failed fetch leaves all twelve slots available |
| Booking.ClinicPhone | components/BookingComponent.tsx:161-162 | the configured phone when non-empty, else +201110215455; never empty |
| Booking.WaMeNumber | components/BookingComponent.tsx:175 | only digits remain, never more than the input; a digit-only number is kept |
| Booking.KeepDigitsOfDigitsIf | components/BookingComponent.tsx:175 | stripping non-digits leaves a digit-only string unchanged |
| Booking.WaMeDropsPlus | components/BookingComponent.tsx:175 | "+" followed by digits reaches wa.me without the "+" |
| Booking.DefaultClinicPhoneDigits | components/BookingComponent.tsx:161-175 | without the variable the link goes to 201110215455 |
| Booking.NestedId | components/BookingComponent.tsx:120 | definition: `patientResponse.data?.id`, None when `data` or its `id` is absent |
| Booking.PatientIdOf | components/BookingComponent.tsx:120 | a null reply throws; otherwise the truthy nested `data.id`, else the top-level `id` |
| Booking.IsConflict | components/BookingComponent.tsx:185-188 | definition: the message contains "time slot" or "already booked" (its property: `Failed`) |
| Booking.Failed | components/BookingComponent.tsx:184-204 | a conflict message sends the wizard to step 2 with the conflict text; any other keeps the step and shows the message |
| Booking.Payload | components/BookingComponent.tsx:148-155 | definition: the appointment record: patient id, localized service, date, time, "pending", notes or "" |
| Booking.Calls | components/BookingComponent.tsx:112-180 | definition: the calls of the try block and the first failure (its properties: `CallsShape`, `RunCalls`) |
| Booking.Submit | components/BookingComponent.tsx:96-208 | definition: `handleConfirmBooking` as a function of the replies (its properties: `SubmitOutcomes`, `SubmitSuccess`, `HandleConfirm`) |
| Booking.RunCalls | components/BookingComponent.tsx:112-180 | the statements of the try block, run in order, make exactly the calls and failure of `Calls` |
| Booking.HandleConfirm | components/BookingComponent.tsx:96-208 | the handler's statements, with their early return, compute `Submit` |
| Booking.SubmitWithoutDateOrTime | components/BookingComponent.tsx:102-110 | without a date or time, nothing is sent, the step stays, and the validation message shows |
| Booking.SubmitSuccess | components/BookingComponent.tsx:112-180 | on success: step 4, no error, the patient from the form, then a pending appointment with the draft's date, time, localized service, notes and patient id, then WhatsApp for the clinic's phone |
| Booking.CallsShape | components/BookingComponent.tsx:119-177 | the calls made are a prefix of patient, appointment, WhatsApp, each made only after the previous succeeded |
| Booking.SubmitOutcomes | components/BookingComponent.tsx:96-208 | the step stays, becomes 2, or becomes 4 exactly when there is no error and all three calls were made |
| Booking.SubmitKeepsDraftFit | components/BookingComponent.tsx:96-208 | submitting from the form keeps the step consistent with the draft |
| Booking.SubmitFailureClassified | components/BookingComponent.tsx:184-204 | a failed patient call goes to step 2 iff its message mentions "time slot" or "already booked"; otherwise its message shows |
| Booking.AppointmentConflictGoesBack | components/BookingComponent.tsx:158-195 | an appointment call refused as a conflict sends the wizard back to step 2 after two calls |
| BookingWizard.Wizard.constructor | components/BookingComponent.tsx:27-36 | step 1, empty draft, no date, error or booked slots |
| BookingWizard.Wizard.SelectService | components/BookingComponent.tsx:70-73 | the service id is recorded and the step becomes 2; nothing else changes |
| BookingWizard.Wizard.SelectDate | components/BookingComponent.tsx:75-89 | a defined date is recorded, with the booked slots of the reply; an undefined one changes only the selection |
| BookingWizard.Wizard.ClickSlot | components/BookingComponent.tsx:317-323 | an available slot records its label and goes to step 3; an unavailable one changes nothing |
| BookingWizard.Wizard.Continue | components/BookingComponent.tsx:350-351 | continue goes to step 3 iff a time is chosen |
| BookingWizard.Wizard.BackToService | components/BookingComponent.tsx:343 | back from step 2 goes to step 1 and keeps the draft |
| BookingWizard.Wizard.BackToDateTime | components/BookingComponent.tsx:391 | back from the form goes to step 2 and keeps the draft |
| BookingWizard.Wizard.ConfirmBooking | components/BookingComponent.tsx:96-208 | the new step and error are those of `Submit`; the draft is kept; submitting ends false |
| BookingFlow.Success | components/Booking/index.tsx:248-263 | definition: the success view's service name, date ("" without one) and time (its property: `SuccessMatchesAppointment`) |
| BookingFlow.SuccessMatchesAppointment | components/Booking/index.tsx:236-256 | after a successful submission the success view shows the service, the same calendar date and the time the pending appointment was sent with |
| BookingFlow.Flow.constructor | components/Booking/index.tsx:22-32 | step 1, empty draft, nothing loading, booked or shown as an error |
| BookingFlow.Flow.SelectService | components/Booking/index.tsx:54-57 | the service id is recorded and the step becomes 2 |
| BookingFlow.Flow.StartDateSelection | components/Booking/index.tsx:59-64 | a defined date is recorded and slot loading starts; an undefined one changes only the selection |
| BookingFlow.Flow.SlotsArrived | components/Booking/index.tsx:65-74 | loading ends with the reply's booked slots; a failed fetch disables no button |
| BookingFlow.Flow.ClickSlot | components/Booking/index.tsx:78-81 | an enabled slot records its label and goes to step 3; clicks arrive only when not loading |
| BookingFlow.Flow.BackToDateTime | components/Booking/index.tsx:229 | back from the form goes to step 2 and keeps the draft |
| BookingFlow.Flow.ConfirmBooking | components/Booking/index.tsx:83-178 | the new step and error are those of `Submit`; the draft and slots are kept |
| Admin.CountOf | components/AdminDashboard.tsx:68-73 | a status count never exceeds the list length |
| Admin.StatsOf | components/AdminDashboard.tsx:67-74 | total, confirmed and pending counts, and revenue = 3500 × confirmed |
| Admin.StatsBounded | components/AdminDashboard.tsx:67-74 | confirmed + pending ≤ total; revenue is between 0 and 3500 × total, in multiples of 3500 |
| Admin.Filtered | components/AdminDashboard.tsx:76-79 | "all" gives the whole list; any other value exactly the entries with that status text |
| Admin.FilteredKeepsOrder | components/AdminDashboard.tsx:76-79 | the filter distributes over concatenation, keeping order |
| Admin.FilterMatchesCount | components/AdminDashboard.tsx:68-79 | filtering by a status shows exactly as many rows as its count |
| Admin.StatusTextInjective | components/AdminDashboard.tsx:83 | distinct statuses have distinct texts |
| Admin.SameFilter | components/AdminDashboard.tsx:79 | predicates that agree everywhere filter alike |
| Admin.UpdateStatus | components/AdminDashboard.tsx:87-90 | same length; entries with the id get the new status; all others are unchanged |
| Admin.UpdateStatusTouchesOnlyId | components/AdminDashboard.tsx:86-91 | afterwards every entry with the id has the status, and the other entries are the same, in the same order |
| Admin.OthersUnchanged | components/AdminDashboard.tsx:87-90 | the entries with other ids are kept, in order |
| Admin.RemoveById | components/AdminDashboard.tsx:115 | exactly the entries with other ids remain |
| Admin.RemoveByIdIdempotent | components/AdminDashboard.tsx:115 | deleting twice is deleting once; deletion keeps order |
| Admin.Dashboard.constructor | components/AdminDashboard.tsx:39-42 | no appointments, filter "all", loading, no error |
| Admin.Dashboard.Fetch | components/AdminDashboard.tsx:46-61 | the error is cleared; a list replaces the appointments, another value empties them, a failure keeps them and shows its message; loading ends |
| Admin.Dashboard.StatusChange | components/AdminDashboard.tsx:81-98 | the list is updated only after the server accepted; a failure keeps it and shows the message |
| Admin.Dashboard.Delete | components/Admin/Dashboard.tsx:98-110 | a declined confirmation makes no call and changes nothing; a successful delete removes the id; a failure keeps the list and shows the message |
| Admin.Dashboard.SetFilter | components/AdminDashboard.tsx:278 | a filter button sets the selected status and nothing else |
| Carousel.TestimonialsWellFormed | components/TestimonialsCarousel.tsx:17-58 | five testimonials, each rated 1 to 5 |
| Carousel.NextIndex | components/TestimonialsCarousel.tsx:67 | the next index stays in range and wraps from the last to the first |
| Carousel.PrevIndex | components/TestimonialsCarousel.tsx:72-74 | the previous index stays in range and wraps from the first to the last |
| Carousel.PrevUndoesNext | components/TestimonialsCarousel.tsx:65-75 | previous undoes next, and next undoes previous |
| Carousel.Forward | components/TestimonialsCarousel.tsx:77-83 | any number of timer steps stays in range |
| Carousel.ForwardIsModular | components/TestimonialsCarousel.tsx:65-68 | k steps forward land on (i + k) mod 5 |
| Carousel.FiveNextsComeBack | components/TestimonialsCarousel.tsx:67 | five nexts return to the start |
| Carousel.Stars | components/TestimonialsCarousel.tsx:139-144 | five stars; star i is filled iff i < rating |
| Carousel.CountFilled | components/TestimonialsCarousel.tsx:139-144 | the filled count never exceeds the stars |
| Carousel.FilledStarsMatchRating | components/TestimonialsCarousel.tsx:139-144 | a rating of 0 to 5 fills exactly that many stars |
| Carousel.FilledPrefix | components/TestimonialsCarousel.tsx:143 | stars filled exactly below k count k |
| Carousel.Carousel.constructor | components/TestimonialsCarousel.tsx:62-63 | index 0, direction 0 |
| Carousel.Carousel.Next | components/TestimonialsCarousel.tsx:65-68 | direction 1, index advanced modulo 5 |
| Carousel.Carousel.Prev | components/TestimonialsCarousel.tsx:70-75 | direction -1, index moved back modulo 5 |
| Carousel.Carousel.Dot | components/TestimonialsCarousel.tsx:191-197 | the index becomes the dot's; direction 1 iff the dot lies ahead, else -1 |
| Faq.Toggle | components/FAQSection.tsx:56 | clicking the open item closes everything; any other click opens that item alone |
| Faq.OpenItems | components/FAQSection.tsx:71 | at most one answer shows; none when nothing is open |
| Faq.ToggleTwice | components/FAQSection.tsx:56 | two clicks on the same item restore a closed or same-item state; after a click nothing or exactly that item is open |
| Faq.Accordion.constructor | components/FAQSection.tsx:24 | nothing is open |
| Faq.Accordion.Click | components/FAQSection.tsx:56 | the new open item is the toggle of the old one |
| LanguageSwitcher.LanguagesAreLocales | components/LanguageSwitcher.tsx:24-27 | the dropdown offers exactly the supported locales, in order |
| LanguageSwitcher.SwitchWithoutLocaleKeepsPath | components/LanguageSwitcher.tsx:19 | a path without "/" + locale is unchanged |
| LanguageSwitcher.SwitchPath | components/LanguageSwitcher.tsx:19 | definition: `pathname.replace("/" + locale, "/" + newLocale)` |
| LanguageSwitcher.SwitchRewritesFirstOccurrence | components/LanguageSwitcher.tsx:19 | only the first occurrence is rewritten; what precedes it holds none and what follows is kept |
| LanguageSwitcher.SwitchToSameLocale | components/LanguageSwitcher.tsx:19 | switching to the current locale yields the same path |
| LanguageSwitcher.SwitchLocalePrefix | components/LanguageSwitcher.tsx:19 | on a locale-prefixed path the prefix is exchanged and the rest kept |
| LanguageSwitcher.SwitchBackRestoresPath | components/LanguageSwitcher.tsx:17-20 | switching there and back returns to the starting path |
| LanguageSwitcher.Switcher.constructor | components/LanguageSwitcher.tsx:13 | the menu starts closed, with nothing pushed |
| LanguageSwitcher.Switcher.ToggleMenu | components/LanguageSwitcher.tsx:34 | the globe button flips the menu |
| LanguageSwitcher.Switcher.Choose | components/LanguageSwitcher.tsx:17-22 | the rewritten path is pushed, and the menu closes |
| Treatments.Categories | components/TreatmentsSection.tsx:63-65 | the tabs are the map's keys, in declared order |
| Treatments.LabelKey | components/TreatmentsSection.tsx:152 | a label exists iff the category is a key of the map, and it is that entry's label |
| Treatments.FilterTreatments | components/TreatmentsSection.tsx:66-68 | exactly the treatments of the category are shown |
| Treatments.FilterSingle | components/TreatmentsSection.tsx:66-68 | a filter with a single match keeps just that element |
| Treatments.CategoriesInOrder | components/TreatmentsSection.tsx:52-57 | the tabs are surgery, cosmetic, orthodontics, fillings |
| Treatments.TreatmentsFollowCategories | components/TreatmentsSection.tsx:17-57 | treatment k belongs to category k, and the categories are distinct |
| Treatments.TreatmentCategoryHasLabel | components/TreatmentsSection.tsx:151-153 | every treatment's category is a key, labelled as its own tab |
| Treatments.LabelKeyFirst | components/TreatmentsSection.tsx:152 | the lookup finds the entry whose key no earlier entry has |
| Treatments.TabShowsItsTreatment | components/TreatmentsSection.tsx:17-68 | each tab shows exactly one treatment, the one of its category |
| Treatments.UnknownCategoryShowsNothing | components/TreatmentsSection.tsx:66-68 | a category that is no key shows no card |
| Treatments.TreatmentsTabs.constructor | components/TreatmentsSection.tsx:61 | the first selected category is surgery |
| Treatments.TreatmentsTabs.SelectTab | components/TreatmentsSection.tsx:113-116 | the tab's category is selected, and exactly its treatment is shown |

## Left out

- Asynchrony. Each handler runs to completion as one method. Interleavings of
  awaits are not modelled: a second date picked before the first fetch
  answers, or a click during a submission. So `isSubmitting` is observable only
  as false after a handler.
- The non-Error branch of the catch blocks is not modelled: in the
  submission, and in the admin fetch, status-update and delete handlers of
  both dashboards (`Admin.Dashboard.Fetch`, `StatusChange` and `Delete`).
  Every failure the model admits is an Error with a message, so the generic
  fallback texts of these branches are unreachable here.
- The TypeError messages for reading a property of `null`
  (`Booking.NullDataMessage`, and the one `Api.MessageField` raises) use
  the V8 wording, "Cannot read properties of null (reading …)". Other
  JavaScript engines word these errors differently.
- The booking wizards read a `booked_slots` member as an array whenever it is
  truthy. A truthy non-array value (a string, an object) is excluded by
  `Booking.SlotsReplyModelled`, because `includes` on it changes meaning.
- Prototype members are not modelled. Lookups in message trees, name tables
  and `categoryMap` see only own members, so a key such as
  "constructor" finds nothing.
- The calendar (DayPicker and its disabled past dates), `date-fns`
  formatting and `toLocaleDateString` are not modelled. The success view and
  the form show the `yyyy-MM-dd` string where the source shows a localized
  date, and the form's date is a parameter.
- The WhatsApp message text and its `encodeURIComponent` are not modelled.
  The effect records the clinic's phone. The number in the link is
  `Booking.WaMeNumber` of that phone, and `Booking.DefaultClinicPhoneDigits`
  states it for the default phone.
- The admin `handleWhatsApp` link, loading spinners and animation are out.
- `Admin.Appointment` keeps the fields the list operations read. The nested
  patient record shown in the table is not modelled.
- The carousel's five-second timer is modelled as repeated `Next` calls
  (`Carousel.Forward`). Its clearing and re-arming on each index change is not.
- The form's rules report message keys. react-hook-form stores `t(key)` of
  them, the translated text, which is not part of `BookingForm.Errors`.
- `JSON.stringify` is modelled for the values the model builds. Two things
  are not modelled: objects put integer-like keys such as "1" first, and
  lone surrogates print as `\u` escapes. Dafny characters are Unicode
  scalar values and cannot hold them. The `JSON.parse` reader
  `Json.Unescape` does not combine surrogate pairs written as two `\u`
  escapes.
- LanguageSwitcher.SwitchPath: the `$` patterns that `String.prototype.replace`
  reads in its replacement text are not interpreted. So the model is exact
  for replacements without '$', such as "/ar" and "/en", the only ones the
  component passes. `SwitchRewritesFirstOccurrence` and
  `SwitchBackRestoresPath` hold for the source only under that condition.
- BookingForm.EmailError, BookingForm.AcceptedIff and BookingForm.HandleSubmit
  apply react-hook-form's rules to the value it reads. The e-mail field is
  `type="email"` in a form without `noValidate`
  (components/BookingForm.tsx:81, 160). So the browser acts first, and that
  is not modelled. It strips leading and trailing whitespace, so " a@b.c" is
  submitted as "a@b.c" where the model reports `emailInvalid`. It also blocks
  the submission of a value that is not a valid HTML e-mail address, such as
  "a@b..c", which the model accepts. The phone field is `type="tel"`, which
  has no browser check.
- Every component takes an `I18n.Locale`, "ar" or "en", where the source
  takes a string. Only app/[locale]/layout.tsx:27-28 narrows that string: it
  calls `notFound()` for any other locale. Without that guard,
  `serviceNames[locale][…]` at components/Booking/index.tsx:114 would throw
  a TypeError.
- react-hook-form's `required` is modelled as "the value is the empty
  string". A value of spaces passes `required`, and then must still match the
  pattern.
- Api.CreatePatientFallbackUnreachable: a server `message` that is an array
  printing as "" (`String([])`) gives an empty error message. The lemma states
  that the message is non-empty only when `message` is no array.
- Numbers in parsed JSON are integers. Floating-point values, and how
  `String` prints them, are not modelled.
- The middleware's `matcher` (which requests reach it at all) is not modelled,
  and neither is `NextResponse` beyond pass-through and redirect.
- The server itself, `fetch`, the router and `window.open` are parameters or
  recorded effects, as described above.

## Findings

| source | as written | input that shows it | evidently intended | confidence | as-written member | corrected member |
|---|---|---|---|---|---|---|
| middleware.ts:7-12, 31-34 | `getLocalizedRedirect` returns null for any path that merely starts with "/ar" or "/en", and `new URL(null, request.url)` resolves the string "null" | a request for "/english" is redirected to "/null" | every path without a locale is redirected to "/" + locale + path | not executed | Middleware.EnglishRedirectsToNull | Middleware.RedirectTargetPasses |
| components/BookingForm.tsx:126 | the character class `[0-2,5,6]` includes a literal comma | "01,12345678" passes the phone rule | the operator digit is one of 0, 1, 2, 5, 6 | not executed | BookingForm.FormAcceptsCommaPhone | BookingForm.IntendedFormDiffersOnlyByComma |
