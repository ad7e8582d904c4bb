/** The service catalog of the booking wizard (components/Booking/ServiceSelector.tsx,
    repeated in components/BookingComponent.tsx) and the per-locale tables of
    service names that the wizard and the form send to the server
    (components/Booking/index.tsx, components/BookingComponent.tsx,
    components/BookingForm.tsx). */
module Services {
  import opened Strings
  import I18n

  datatype Service = Service(id: string, nameKey: string, icon: string)

  const Catalog: seq<Service> := [
    Service("implant", "booking.serviceImplant", "\U{1F9B7}"),
    Service("whitening", "booking.serviceWhitening", "✨"),
    Service("braces", "booking.serviceBraces", "\U{1F60A}"),
    Service("filling", "booking.serviceFilling", "\U{1F6E1}️"),
    Service("cleaning", "booking.serviceCleaning", "\U{1F9FC}"),
    Service("extraction", "booking.serviceExtraction", "⚕️")
  ]

  /** The ids a service button can pass to `onSelect`. */
  function CatalogIds(): (ids: seq<string>)
    ensures |ids| == |Catalog|
    ensures forall i :: 0 <= i < |Catalog| ==> ids[i] == Catalog[i].id
  {
    ["implant", "whitening", "braces", "filling", "cleaning", "extraction"]
  }

  /** Six services with six different ids, each named by a "booking.service…" key. */
  lemma CatalogWellFormed()
    ensures |Catalog| == 6
    ensures forall i, j :: 0 <= i < j < |Catalog| ==> Catalog[i].id != Catalog[j].id
    ensures forall i :: 0 <= i < |Catalog| ==> StartsWith(Catalog[i].nameKey, "booking.service")
  {
    forall i, j | 0 <= i < j < |Catalog|
      ensures Catalog[i].id != Catalog[j].id
    {
      assert Catalog[i].id[0] != Catalog[j].id[0];
    }
    forall i | 0 <= i < |Catalog|
      ensures StartsWith(Catalog[i].nameKey, "booking.service")
    {
      assert Catalog[i].nameKey[..15] == "booking.service";
    }
  }

  const ServiceNamesAr: map<string, string> := map[
    "implant" := "زراعة أسنان",
    "whitening" := "تبييض الأسنان",
    "braces" := "تقويم الأسنان",
    "filling" := "حشوات الأسنان",
    "cleaning" := "تنظيف الأسنان",
    "extraction" := "خلع الأسنان"
  ]

  const ServiceNamesEn: map<string, string> := map[
    "implant" := "Dental Implants",
    "whitening" := "Teeth Whitening",
    "braces" := "Teeth Alignment",
    "filling" := "Dental Fillings",
    "cleaning" := "Teeth Cleaning",
    "extraction" := "Tooth Extraction"
  ]

  /** The table of the component's locale. */
  function ServiceNames(locale: I18n.Locale): map<string, string>
  {
    match locale
    case Ar => ServiceNamesAr
    case En => ServiceNamesEn
  }

  /** The catalog ids are exactly the keys of both name tables, and no name
      is empty. */
  lemma TablesMatchCatalog(locale: I18n.Locale)
    ensures ServiceNames(locale).Keys == set i | 0 <= i < |Catalog| :: Catalog[i].id
    ensures forall id :: id in ServiceNames(locale) ==> ServiceNames(locale)[id] != ""
  {
    TableKeys(locale);
    TableNames(locale);
  }

  lemma TableKeys(locale: I18n.Locale)
    ensures ServiceNames(locale).Keys == set i | 0 <= i < |Catalog| :: Catalog[i].id
  {
    var ids := set i | 0 <= i < |Catalog| :: Catalog[i].id;
    assert Catalog[0].id in ids && Catalog[1].id in ids && Catalog[2].id in ids;
    assert Catalog[3].id in ids && Catalog[4].id in ids && Catalog[5].id in ids;
  }

  lemma TableNames(locale: I18n.Locale)
    ensures forall id :: id in ServiceNames(locale) ==> ServiceNames(locale)[id] != ""
  {
    match locale
    case Ar =>
      assert forall id :: id in ServiceNamesAr ==> ServiceNamesAr[id] != "";
    case En =>
      assert forall id :: id in ServiceNamesEn ==> ServiceNamesEn[id] != "";
  }

  /** `serviceNames[id] || id`. */
  function ServiceName(locale: I18n.Locale, id: string): string
  {
    var names := ServiceNames(locale);
    if id in names && names[id] != "" then names[id] else id
  }

  /** The localized name of a catalog service, and the raw id for any other
      value (the empty draft service among them). */
  lemma ServiceNameLookup(locale: I18n.Locale, id: string)
    ensures (exists i :: 0 <= i < |Catalog| && Catalog[i].id == id) ==> ServiceName(locale, id) == ServiceNames(locale)[id]
    ensures (forall i :: 0 <= i < |Catalog| ==> Catalog[i].id != id) ==> ServiceName(locale, id) == id
  {
    TablesMatchCatalog(locale);
  }

  /** Every catalog service has a localized name in both locales, different
      from its id, so the fallback is taken only for ids outside the catalog. */
  lemma {:induction false} CatalogServicesNamed(locale: I18n.Locale, id: string)
    ensures (exists i :: 0 <= i < |Catalog| && Catalog[i].id == id) <==> ServiceName(locale, id) != id
  {
    TablesMatchCatalog(locale);
    var names := ServiceNames(locale);
    if exists i :: 0 <= i < |Catalog| && Catalog[i].id == id {
      assert id in names;
      assert names[id][0] != id[0];
    } else {
      assert id !in names;
    }
  }
}
