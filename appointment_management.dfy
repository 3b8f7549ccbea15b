/** The admin's appointment table: status counts, a status filter, and a status
    selector on each row that edits the list locally. */
module AppointmentManagement {
  import opened Wrappers
  import opened Types
  import opened Lists

  function HasStatus(s: Status): Appointment -> bool
  {
    (a: Appointment) => a.status == s
  }

  /** `appointments.filter(a => a.status === s).length` */
  function StatusCount(apts: seq<Appointment>, s: Status): (n: nat)
    ensures n <= |apts|
  {
    |Filter(apts, HasStatus(s))|
  }

  /** The five status counts add up to the number of appointments. */
  lemma {:induction false} StatusCountsTotal(apts: seq<Appointment>)
    ensures StatusCount(apts, Scheduled) + StatusCount(apts, Confirmed) + StatusCount(apts, Completed) +
            StatusCount(apts, Cancelled) + StatusCount(apts, NoShow) == |apts|
    decreases |apts|
  {
    if apts != [] {
      StatusCountsTotal(apts[1..]);
    }
  }

  /** The filter value "all", or the wire name of a status. */
  predicate PassesFilter(a: Appointment, statusFilter: string)
  {
    statusFilter == "all" || StatusName(a.status) == statusFilter
  }

  function FilterTest(statusFilter: string): Appointment -> bool
  {
    (a: Appointment) => PassesFilter(a, statusFilter)
  }

  /** `filteredAppointments` */
  function FilteredAppointments(apts: seq<Appointment>, statusFilter: string): (r: seq<Appointment>)
    ensures forall a :: a in r <==> a in apts && PassesFilter(a, statusFilter)
  {
    Filter(apts, FilterTest(statusFilter))
  }

  /** "all" keeps the whole list; the name of a status keeps exactly the
      appointments with that status, in order, as many as its count. */
  lemma FilterByName(apts: seq<Appointment>, s: Status)
    ensures FilteredAppointments(apts, "all") == apts
    ensures FilteredAppointments(apts, StatusName(s)) == Filter(apts, HasStatus(s))
    ensures |FilteredAppointments(apts, StatusName(s))| == StatusCount(apts, s)
    ensures Subsequence(FilteredAppointments(apts, StatusName(s)), apts)
  {
    FilterAll(apts, FilterTest("all"));
    forall i | 0 <= i < |apts|
      ensures FilterTest(StatusName(s))(apts[i]) == HasStatus(s)(apts[i])
    {
      StatusNames(apts[i].status, StatusName(s));
      StatusNames(s, StatusName(s));
    }
    FilterCongruent(apts, FilterTest(StatusName(s)), HasStatus(s));
    FilterSubsequence(apts, FilterTest(StatusName(s)));
  }

  /** `doctors.find(d => d.id === id)` */
  function FindDoctor(doctors: seq<Doctor>, id: string): (r: Option<Doctor>)
    ensures r.Some? ==> r.value in doctors && r.value.id == id
    ensures r.None? ==> forall d :: d in doctors ==> d.id != id
  {
    if doctors == [] then None
    else if doctors[0].id == id then Some(doctors[0])
    else FindDoctor(doctors[1..], id)
  }

  /** `users.find(u => u.id === id)` */
  function FindUser(users: seq<User>, id: string): (r: Option<User>)
    ensures r.Some? ==> r.value in users && r.value.id == id
    ensures r.None? ==> forall u :: u in users ==> u.id != id
  {
    if users == [] then None
    else if users[0].id == id then Some(users[0])
    else FindUser(users[1..], id)
  }

  /** A table row: the appointment with its doctor and patient. */
  datatype Row = Row(appointment: Appointment, doctor: Doctor, patient: User)

  /** `filteredAppointments.map(...)`: a row for each appointment whose doctor and
      patient are both found; the others render nothing. */
  function Rows(apts: seq<Appointment>, doctors: seq<Doctor>, users: seq<User>): (r: seq<Row>)
    ensures |r| <= |apts|
    ensures forall row :: row in r ==>
      row.appointment in apts &&
      FindDoctor(doctors, row.appointment.doctorId) == Some(row.doctor) &&
      FindUser(users, row.appointment.userId) == Some(row.patient)
    ensures forall i :: (0 <= i < |apts| && FindDoctor(doctors, apts[i].doctorId).Some? && FindUser(users, apts[i].userId).Some?) ==>
      exists row :: row in r && row.appointment == apts[i]
  {
    if apts == [] then []
    else
      var a := apts[0];
      var rest := Rows(apts[1..], doctors, users);
      var doctor := FindDoctor(doctors, a.doctorId);
      var patient := FindUser(users, a.userId);
      if doctor.Some? && patient.Some? then
        var row := Row(a, doctor.value, patient.value);
        assert row in [row] + rest;
        [row] + rest
      else rest
  }

  /** The rows keep the order of the appointments: the rows of two lists one after
      the other are the rows of the first followed by those of the second. */
  lemma {:induction false} RowsAppend(xs: seq<Appointment>, ys: seq<Appointment>, doctors: seq<Doctor>, users: seq<User>)
    ensures Rows(xs + ys, doctors, users) == Rows(xs, doctors, users) + Rows(ys, doctors, users)
    decreases |xs|
  {
    if xs == [] {
      assert xs + ys == ys;
    } else {
      assert (xs + ys)[1..] == xs[1..] + ys;
      RowsAppend(xs[1..], ys, doctors, users);
    }
  }

  function SetStatus(s: Status, nowIso: string): Appointment -> Appointment
  {
    (a: Appointment) => a.(status := s, updatedAt := nowIso)
  }

  /** `handleStatusUpdate`'s rewrite of the list. */
  function UpdateStatus(apts: seq<Appointment>, id: string, s: Status, nowIso: string): (r: seq<Appointment>)
    ensures |r| == |apts|
    ensures forall i :: 0 <= i < |apts| ==>
      (apts[i].id == id ==> r[i] == apts[i].(status := s, updatedAt := nowIso)) &&
      (apts[i].id != id ==> r[i] == apts[i])
  {
    MapWhere(apts, (a: Appointment) => a.id == id, SetStatus(s, nowIso))
  }

  /** Moving the only appointment with the id from one status to another moves
      one unit between the two counts. */
  lemma {:induction false} UpdateMovesCount(apts: seq<Appointment>, k: nat, s: Status, nowIso: string)
    requires k < |apts| && apts[k].status != s
    requires forall i :: 0 <= i < |apts| && i != k ==> apts[i].id != apts[k].id
    ensures var r := UpdateStatus(apts, apts[k].id, s, nowIso);
      StatusCount(r, s) == StatusCount(apts, s) + 1 &&
      StatusCount(r, apts[k].status) + 1 == StatusCount(apts, apts[k].status)
    decreases |apts|
  {
    var id := apts[k].id;
    var r := UpdateStatus(apts, id, s, nowIso);
    var old_s := apts[k].status;
    assert apts == apts[..k] + [apts[k]] + apts[k + 1..];
    assert r == r[..k] + [r[k]] + r[k + 1..];
    assert r[..k] == apts[..k];
    assert r[k + 1..] == apts[k + 1..];
    FilterAppend(apts[..k] + [apts[k]], apts[k + 1..], HasStatus(s));
    FilterAppend(apts[..k], [apts[k]], HasStatus(s));
    FilterAppend(r[..k] + [r[k]], r[k + 1..], HasStatus(s));
    FilterAppend(r[..k], [r[k]], HasStatus(s));
    FilterAppend(apts[..k] + [apts[k]], apts[k + 1..], HasStatus(old_s));
    FilterAppend(apts[..k], [apts[k]], HasStatus(old_s));
    FilterAppend(r[..k] + [r[k]], r[k + 1..], HasStatus(old_s));
    FilterAppend(r[..k], [r[k]], HasStatus(old_s));
  }

  class Page {
    var appointments: seq<Appointment>
    var doctors: seq<Doctor>
    var users: seq<User>
    var statusFilter: string
    var isLoading: bool

    constructor ()
      ensures appointments == [] && doctors == [] && users == [] && statusFilter == "all" && isLoading
    {
      appointments := [];
      doctors := [];
      users := [];
      statusFilter := "all";
      isLoading := true;
    }

    /** The effect loading the page: each successful reply with data replaces its
        list; the users are the built-in sample users. */
    method FetchData(apts: ApiResponse<seq<Appointment>>, docs: ApiResponse<seq<Doctor>>, sampleUsers: seq<User>)
      modifies this`appointments, this`doctors, this`users, this`isLoading
      ensures appointments == (if apts.success && apts.data.Some? then apts.data.value else old(appointments))
      ensures doctors == (if docs.success && docs.data.Some? then docs.data.value else old(doctors))
      ensures users == sampleUsers && !isLoading
    {
      if apts.success && apts.data.Some? {
        appointments := apts.data.value;
      }
      if docs.success && docs.data.Some? {
        doctors := docs.data.value;
      }
      users := sampleUsers;
      isLoading := false;
    }

    /** `handleStatusUpdate`: the entries with the id take the new status and the
        update time; nothing is sent to the backend. */
    method HandleStatusUpdate(id: string, s: Status, nowIso: string)
      modifies this`appointments
      ensures appointments == UpdateStatus(old(appointments), id, s, nowIso)
    {
      appointments := UpdateStatus(appointments, id, s, nowIso);
    }

    /** The rows the table shows. */
    function ShownRows(): seq<Row>
      reads this
    {
      Rows(FilteredAppointments(appointments, statusFilter), doctors, users)
    }
  }
}
