/** The appointment list of the two admin dashboards
    (components/AdminDashboard.tsx and components/Admin/Dashboard.tsx): the
    statistics, the status filter, and the handlers that replace the list
    after a call to the server. The two differ only in that
    components/Admin/Dashboard.tsx asks for a confirmation before deleting. */
module Admin {
  import opened Wrappers
  import opened Lists
  import Api
  import Json

  /** The fields of an appointment that the list operations look at; the
      nested patient record is not modelled. */
  datatype Appointment = Appointment(
    id: int, patientId: int, service: string, date: string, time: string,
    status: Api.AppointmentStatus, phone: Option<string>)

  // -------------------------------------------------------------- statistics

  const PricePerVisit: int := 3500

  function HasStatus(status: Api.AppointmentStatus): Appointment -> bool
  {
    (a: Appointment) => a.status == status
  }

  function StatusTextIs(selected: string): Appointment -> bool
  {
    (a: Appointment) => Api.StatusText(a.status) == selected
  }

  function OtherId(id: int): Appointment -> bool
  {
    (a: Appointment) => a.id != id
  }

  /** The number of appointments with the given status. */
  function CountOf(list: seq<Appointment>, status: Api.AppointmentStatus): (n: nat)
    ensures n <= |list|
  {
    |Filter(list, HasStatus(status))|
  }

  datatype Stats = Stats(total: nat, confirmed: nat, pending: nat, revenue: int)

  /** The four cards: total, confirmed, pending and the expected revenue of
      the confirmed visits. */
  function StatsOf(list: seq<Appointment>): (s: Stats)
    ensures s.total == |list|
    ensures s.confirmed == CountOf(list, Api.Confirmed) && s.pending == CountOf(list, Api.Pending)
    ensures s.revenue == PricePerVisit * s.confirmed
  {
    var confirmed := CountOf(list, Api.Confirmed);
    Stats(|list|, confirmed, CountOf(list, Api.Pending), confirmed * PricePerVisit)
  }

  /** Confirmed and pending visits never outnumber the list, so the revenue
      is at most 3500 per listed appointment. */
  lemma {:induction false} StatsBounded(list: seq<Appointment>)
    ensures StatsOf(list).confirmed + StatsOf(list).pending <= StatsOf(list).total
    ensures 0 <= StatsOf(list).revenue <= PricePerVisit * |list|
    ensures StatsOf(list).revenue % PricePerVisit == 0
  {
    FilterDisjoint(list, HasStatus(Api.Confirmed), HasStatus(Api.Pending));
  }

  // ------------------------------------------------------------------ filter

  const AllStatuses: string := "all"

  /** `filteredAppointments`: "all" shows the whole list, any other value
      the appointments whose status has that text. */
  function Filtered(list: seq<Appointment>, selected: string): (r: seq<Appointment>)
    ensures selected == AllStatuses ==> r == list
    ensures selected != AllStatuses ==>
      (forall a :: a in r <==> a in list && Api.StatusText(a.status) == selected)
  {
    if selected == AllStatuses then list
    else Filter(list, StatusTextIs(selected))
  }

  /** Filtering keeps the order of the list: the shown entries of a longer
      list start with the shown entries of its prefix. */
  lemma FilteredKeepsOrder(list: seq<Appointment>, more: seq<Appointment>, selected: string)
    ensures Filtered(list + more, selected) == Filtered(list, selected) + Filtered(more, selected)
  {
    if selected != AllStatuses {
      FilterAppend(list, more, StatusTextIs(selected));
    }
  }

  /** A status filter selects exactly the appointments counted for it. */
  lemma FilterMatchesCount(list: seq<Appointment>, status: Api.AppointmentStatus)
    ensures |Filtered(list, Api.StatusText(status))| == CountOf(list, status)
  {
    assert Api.StatusText(status) != AllStatuses;
    StatusTextInjective();
    SameFilter(list, StatusTextIs(Api.StatusText(status)), HasStatus(status));
  }

  lemma StatusTextInjective()
    ensures forall s, t :: Api.StatusText(s) == Api.StatusText(t) ==> s == t
  {
    forall s, t | Api.StatusText(s) == Api.StatusText(t)
      ensures s == t
    {
      assert Api.StatusText(s)[0] == Api.StatusText(t)[0];
    }
  }

  lemma {:induction false} SameFilter<T>(s: seq<T>, p: T -> bool, q: T -> bool)
    requires forall x :: p(x) == q(x)
    ensures Filter(s, p) == Filter(s, q)
    decreases |s|
  {
    if |s| > 0 {
      SameFilter(s[1..], p, q);
    }
  }

  // ------------------------------------------------------------ list updates

  /** `appointments.map(a => a.id === id ? { ...a, status } : a)`. */
  function UpdateStatus(list: seq<Appointment>, id: int, status: Api.AppointmentStatus): (r: seq<Appointment>)
    ensures |r| == |list|
    ensures forall i :: 0 <= i < |r| && list[i].id == id ==> r[i] == list[i].(status := status)
    ensures forall i :: 0 <= i < |r| && list[i].id != id ==> r[i] == list[i]
  {
    seq(|list|, i requires 0 <= i < |list| => if list[i].id == id then list[i].(status := status) else list[i])
  }

  /** After the update every entry with that id has the new status, and the
      entries with other ids are exactly as before, in the same order. */
  lemma UpdateStatusTouchesOnlyId(list: seq<Appointment>, id: int, status: Api.AppointmentStatus)
    ensures forall a :: a in UpdateStatus(list, id, status) && a.id == id ==> a.status == status
    ensures Filter(UpdateStatus(list, id, status), OtherId(id)) == Filter(list, OtherId(id))
  {
    OthersUnchanged(list, id, status);
  }

  lemma {:induction false} OthersUnchanged(list: seq<Appointment>, id: int, status: Api.AppointmentStatus)
    ensures Filter(UpdateStatus(list, id, status), OtherId(id)) == Filter(list, OtherId(id))
    decreases |list|
  {
    if |list| > 0 {
      var r := UpdateStatus(list, id, status);
      assert r[1..] == UpdateStatus(list[1..], id, status);
      OthersUnchanged(list[1..], id, status);
      assert OtherId(id)(r[0]) == OtherId(id)(list[0]);
      if list[0].id != id {
        assert r[0] == list[0];
      }
    }
  }

  /** `appointments.filter(a => a.id !== id)`. */
  function RemoveById(list: seq<Appointment>, id: int): (r: seq<Appointment>)
    ensures forall a :: a in r <==> a in list && a.id != id
  {
    Filter(list, OtherId(id))
  }

  /** Deleting twice is deleting once, and deleting keeps the order of what
      remains. */
  lemma RemoveByIdIdempotent(list: seq<Appointment>, more: seq<Appointment>, id: int)
    ensures RemoveById(RemoveById(list, id), id) == RemoveById(list, id)
    ensures RemoveById(list + more, id) == RemoveById(list, id) + RemoveById(more, id)
  {
    var r := RemoveById(list, id);
    assert forall i :: 0 <= i < |r| ==> r[i] in r;
    FilterAll(r, OtherId(id));
    FilterAppend(list, more, OtherId(id));
  }

  // ------------------------------------------------------------- dashboard

  /** What `getAppointments` yields: a list, or some other JSON value. */
  datatype Fetched = Listed(items: seq<Appointment>) | NotAList

  class Dashboard {
    var appointments: seq<Appointment>
    var selectedStatus: string
    var loading: bool
    var error: Option<string>
    /** Whether deleting asks `confirm` first (components/Admin/Dashboard.tsx). */
    const confirmsDelete: bool

    constructor(confirmsDelete: bool)
      ensures this.confirmsDelete == confirmsDelete
      ensures appointments == [] && selectedStatus == AllStatuses && loading && error.None?
    {
      this.confirmsDelete := confirmsDelete;
      appointments := [];
      selectedStatus := AllStatuses;
      loading := true;
      error := None;
    }

    /** The rows on screen. */
    function Visible(): seq<Appointment>
      reads this
    {
      Filtered(appointments, selectedStatus)
    }

    /** `fetchAppointments`: the error is cleared; a list replaces the
        appointments, any other value empties them, a failure keeps them and
        shows its message; loading ends either way. */
    method Fetch(reply: Result<Fetched>)
      modifies this
      ensures !loading
      ensures reply.Ok? && reply.value.Listed? ==> appointments == reply.value.items && error.None?
      ensures reply.Ok? && reply.value.NotAList? ==> appointments == [] && error.None?
      ensures reply.Err? ==> appointments == old(appointments) && error == Some(reply.message)
      ensures selectedStatus == old(selectedStatus)
    {
      loading := true;
      error := None;
      match reply {
        case Ok(Listed(items)) => appointments := items;
        case Ok(NotAList) => appointments := [];
        case Err(m) => error := Some(m);
      }
      loading := false;
    }

    /** `handleStatusChange`: the list changes only after the server
        accepted the update. */
    method StatusChange(id: int, status: Api.AppointmentStatus, reply: Result<Json.Json>)
      modifies this
      ensures reply.Ok? ==> appointments == UpdateStatus(old(appointments), id, status) && error == old(error)
      ensures reply.Err? ==> appointments == old(appointments) && error == Some(reply.message)
      ensures selectedStatus == old(selectedStatus) && loading == old(loading)
    {
      if reply.Ok? {
        appointments := UpdateStatus(appointments, id, status);
      } else {
        error := Some(reply.message);
      }
    }

    /** `handleDelete`. Where a confirmation is asked and declined nothing
        happens and no call is made; otherwise the entries with that id go
        once the server accepted, and a failure keeps the list. */
    method Delete(id: int, confirmed: bool, reply: Result<Json.Json>) returns (called: bool)
      modifies this
      ensures called <==> !confirmsDelete || confirmed
      ensures !called ==> appointments == old(appointments) && error == old(error)
      ensures called && reply.Ok? ==> appointments == RemoveById(old(appointments), id) && error == old(error)
      ensures called && reply.Err? ==> appointments == old(appointments) && error == Some(reply.message)
      ensures selectedStatus == old(selectedStatus) && loading == old(loading)
    {
      if confirmsDelete && !confirmed {
        return false;
      }
      called := true;
      if reply.Ok? {
        appointments := RemoveById(appointments, id);
      } else {
        error := Some(reply.message);
      }
    }

    /** A filter button of `AppointmentFilters`. */
    method SetFilter(selected: string)
      modifies this
      ensures selectedStatus == selected
      ensures appointments == old(appointments) && loading == old(loading) && error == old(error)
    {
      selectedStatus := selected;
    }
  }
}
