/** The summary cards of the admin dashboard. */
module AdminPage {
  import opened Wrappers
  import opened Types
  import opened Lists
  import opened AppointmentManagement

  /** A user of the built-in sample list, with the `isActive` flag it may carry
      (the user record itself declares none). */
  datatype SampleUser = SampleUser(user: User, isActive: Option<bool>)

  /** `u.isActive` is truthy. */
  predicate IsActive(u: SampleUser)
  {
    u.isActive == Some(true)
  }

  function ActiveTest(): SampleUser -> bool
  {
    (u: SampleUser) => IsActive(u)
  }

  /** The number of active users. */
  function ActiveUsers(users: seq<SampleUser>): (r: nat)
    ensures r <= |users|
    ensures r == |users| <==> forall u :: u in users ==> IsActive(u)
    ensures r == 0 <==> forall u :: u in users ==> !IsActive(u)
  {
    var active := Filter(users, ActiveTest());
    FilterAllOrNone(users, ActiveTest());
    |active|
  }

  /** The price the dashboard assumes for every completed appointment. */
  const MockFee: nat := 200

  /** The figures the dashboard shows. */
  datatype Summary = Summary(
    totalUsers: nat,
    activeUsers: nat,
    totalAppointments: nat,
    scheduledAppointments: nat,
    completedAppointments: nat,
    totalRevenue: nat,
    todaysAppointments: nat)

  /** The cards: user counts, appointment counts by exact status, the mock
      revenue at a flat 200 per completed appointment, and a "Today's
      Appointments" figure that is the scheduled count with no date filter. */
  function SummaryOf(users: seq<SampleUser>, apts: seq<Appointment>): (r: Summary)
    ensures r.totalUsers == |users| && r.activeUsers <= r.totalUsers
    ensures r.activeUsers == ActiveUsers(users)
    ensures r.totalAppointments == |apts|
    ensures r.scheduledAppointments == |Filter(apts, HasStatus(Scheduled))|
    ensures r.completedAppointments == |Filter(apts, HasStatus(Completed))|
    ensures r.scheduledAppointments + r.completedAppointments <= r.totalAppointments
    ensures r.totalRevenue == MockFee * r.completedAppointments
    ensures r.todaysAppointments == r.scheduledAppointments
  {
    StatusCountsTotal(apts);
    var scheduled := StatusCount(apts, Scheduled);
    var completed := StatusCount(apts, Completed);
    Summary(|users|, ActiveUsers(users), |apts|, scheduled, completed, completed * MockFee, scheduled)
  }

  /** "Today's Appointments" ignores the dates: appending an appointment
      scheduled on any day raises it by one. */
  lemma TodayIgnoresDates(users: seq<SampleUser>, apts: seq<Appointment>, a: Appointment)
    requires a.status == Scheduled
    ensures SummaryOf(users, apts + [a]).todaysAppointments == SummaryOf(users, apts).todaysAppointments + 1
  {
    FilterAppend(apts, [a], HasStatus(Scheduled));
    assert Filter([a], HasStatus(Scheduled)) == [a] + Filter([], HasStatus(Scheduled));
  }
}
