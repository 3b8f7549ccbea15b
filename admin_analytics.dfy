/** The admin analytics tab: per-doctor figures, the status chart, the
    specialty distribution and the total revenue. */
module AdminAnalytics {
  import opened Wrappers
  import opened Types
  import opened Lists
  import opened AppointmentManagement
  import DoctorsPage
  import AdminPage

  // ---------------------------------------------------------------------------
  // Appointments per doctor
  // ---------------------------------------------------------------------------

  /** One bar of the per-doctor chart. */
  datatype DoctorStats = DoctorStats(name: string, specialty: string, appointments: nat, completed: nat, revenue: nat)

  /** A missing optional string interpolated into a template. */
  function Interpolated(s: Option<string>): string
  {
    s.GetOr("undefined")
  }

  function ForDoctor(id: string): Appointment -> bool
  {
    (a: Appointment) => a.doctorId == id
  }

  /** The number of completed appointments with the doctor. */
  function CompletedFor(apts: seq<Appointment>, id: string): nat
  {
    |Filter(Filter(apts, ForDoctor(id)), HasStatus(Completed))|
  }

  /** The bar of one doctor: its appointments, the completed ones among them,
      and the revenue those bring at the doctor's fee. */
  function StatsOf(d: Doctor, apts: seq<Appointment>): (r: DoctorStats)
    ensures r.appointments == |Filter(apts, ForDoctor(d.id))| && r.completed == CompletedFor(apts, d.id)
    ensures r.completed <= r.appointments <= |apts|
    ensures r.revenue == r.completed * d.consultationFee
    ensures r.specialty == d.specialty
  {
    var mine := Filter(apts, ForDoctor(d.id));
    var done := CompletedFor(apts, d.id);
    DoctorStats(Interpolated(d.firstName) + " " + Interpolated(d.lastName), d.specialty, |mine|, done, done * d.consultationFee)
  }

  /** `appointmentsPerDoctor`: one bar per doctor, in order. */
  function AppointmentsPerDoctor(doctors: seq<Doctor>, apts: seq<Appointment>): (r: seq<DoctorStats>)
    ensures |r| == |doctors|
    ensures forall i :: 0 <= i < |doctors| ==> r[i] == StatsOf(doctors[i], apts)
  {
    if doctors == [] then []
    else [StatsOf(doctors[0], apts)] + AppointmentsPerDoctor(doctors[1..], apts)
  }

  function SumRevenue(stats: seq<DoctorStats>): nat
  {
    if stats == [] then 0 else stats[0].revenue + SumRevenue(stats[1..])
  }

  // ---------------------------------------------------------------------------
  // Status chart
  // ---------------------------------------------------------------------------

  datatype StatusBucket = StatusBucket(name: string, value: nat)

  /** `appointmentsByStatus`: scheduled, completed, cancelled and no-show; there is
      no bar for confirmed appointments. */
  function AppointmentsByStatus(apts: seq<Appointment>): (r: seq<StatusBucket>)
    ensures |r| == 4
    ensures r[0].name == "Scheduled" && r[0].value == |Filter(apts, HasStatus(Scheduled))|
    ensures r[1].name == "Completed" && r[1].value == |Filter(apts, HasStatus(Completed))|
    ensures r[2].name == "Cancelled" && r[2].value == |Filter(apts, HasStatus(Cancelled))|
    ensures r[3].name == "No Show" && r[3].value == |Filter(apts, HasStatus(NoShow))|
    ensures forall i :: 0 <= i < 4 ==> r[i].value <= |apts|
  {
    [StatusBucket("Scheduled", StatusCount(apts, Scheduled)),
     StatusBucket("Completed", StatusCount(apts, Completed)),
     StatusBucket("Cancelled", StatusCount(apts, Cancelled)),
     StatusBucket("No Show", StatusCount(apts, NoShow))]
  }

  /** The chart accounts for every appointment except the confirmed ones. */
  lemma ChartLeavesOutConfirmed(apts: seq<Appointment>)
    ensures var r := AppointmentsByStatus(apts);
      r[0].value + r[1].value + r[2].value + r[3].value + StatusCount(apts, Confirmed) == |apts|
  {
    StatusCountsTotal(apts);
  }

  // ---------------------------------------------------------------------------
  // Specialty distribution
  // ---------------------------------------------------------------------------

  datatype SpecialtyCount = SpecialtyCount(specialty: string, count: nat)

  function SpecialtyNames(acc: seq<SpecialtyCount>): (r: seq<string>)
    ensures |r| == |acc| && forall k :: 0 <= k < |acc| ==> r[k] == acc[k].specialty
  {
    seq(|acc|, k requires 0 <= k < |acc| => acc[k].specialty)
  }

  function SumCounts(acc: seq<SpecialtyCount>): nat
  {
    if acc == [] then 0 else SumCounts(acc[..|acc| - 1]) + acc[|acc| - 1].count
  }

  lemma {:induction false} SumCountsIncrement(acc: seq<SpecialtyCount>, k: nat)
    requires k < |acc|
    ensures SumCounts(acc[k := acc[k].(count := acc[k].count + 1)]) == SumCounts(acc) + 1
    decreases |acc|
  {
    var acc' := acc[k := acc[k].(count := acc[k].count + 1)];
    var n := |acc| - 1;
    if k < n {
      assert acc'[..n] == acc[..n][k := acc[k].(count := acc[k].count + 1)];
      SumCountsIncrement(acc[..n], k);
    } else {
      assert acc'[..n] == acc[..n];
    }
  }

  /** `acc.find(item => item.specialty === s)`, as a position. */
  function FindSpecialty(acc: seq<SpecialtyCount>, s: string): (k: int)
    ensures -1 <= k < |acc|
    ensures k == -1 <==> s !in SpecialtyNames(acc)
    ensures k >= 0 ==> acc[k].specialty == s
  {
    if acc == [] then -1
    else if acc[0].specialty == s then 0
    else
      var k := FindSpecialty(acc[1..], s);
      assert SpecialtyNames(acc) == [acc[0].specialty] + SpecialtyNames(acc[1..]);
      if k == -1 then -1 else k + 1
  }

  /** `acc` tallies the specialties in `col`: each listed once, in
      first-occurrence order, with its number of occurrences, the counts adding
      up to the length of `col`. */
  predicate Tallies(acc: seq<SpecialtyCount>, col: seq<string>)
  {
    && SpecialtyNames(acc) == Dedup(col)
    && (forall k :: 0 <= k < |acc| ==> acc[k].count == multiset(col)[acc[k].specialty])
    && SumCounts(acc) == |col|
  }

  /** One call of the reduce callback: bump the count of a specialty already
      listed, otherwise append it with count 1. */
  function Tally(acc: seq<SpecialtyCount>, s: string): seq<SpecialtyCount>
  {
    var k := FindSpecialty(acc, s);
    if k >= 0 then acc[k := acc[k].(count := acc[k].count + 1)]
    else acc + [SpecialtyCount(s, 1)]
  }

  lemma TallyBump(acc: seq<SpecialtyCount>, col: seq<string>, s: string, k: nat)
    requires Tallies(acc, col)
    requires k < |acc| && acc[k].specialty == s
    ensures Tallies(acc[k := acc[k].(count := acc[k].count + 1)], col + [s])
  {
    var col' := col + [s];
    assert col'[..|col'| - 1] == col;
    assert multiset(col') == multiset(col) + multiset{s};
    assert s in SpecialtyNames(acc);
    SumCountsIncrement(acc, k);
    var acc' := acc[k := acc[k].(count := acc[k].count + 1)];
    assert SpecialtyNames(acc') == SpecialtyNames(acc);
    forall j | 0 <= j < |acc'|
      ensures acc'[j].count == multiset(col')[acc'[j].specialty]
    {
      if j != k {
        assert SpecialtyNames(acc)[j] != SpecialtyNames(acc)[k];
      }
    }
  }

  lemma TallyAppend(acc: seq<SpecialtyCount>, col: seq<string>, s: string)
    requires Tallies(acc, col)
    requires s !in SpecialtyNames(acc)
    ensures Tallies(acc + [SpecialtyCount(s, 1)], col + [s])
  {
    var col' := col + [s];
    assert col'[..|col'| - 1] == col;
    assert multiset(col') == multiset(col) + multiset{s};
    var acc' := acc + [SpecialtyCount(s, 1)];
    assert SpecialtyNames(acc') == SpecialtyNames(acc) + [s];
    assert acc'[..|acc|] == acc;
    assert s !in col;
    forall j | 0 <= j < |acc'|
      ensures acc'[j].count == multiset(col')[acc'[j].specialty]
    {
      if j < |acc| {
        assert SpecialtyNames(acc)[j] in SpecialtyNames(acc);
      }
    }
  }

  lemma TallyStep(acc: seq<SpecialtyCount>, col: seq<string>, s: string)
    requires Tallies(acc, col)
    ensures Tallies(Tally(acc, s), col + [s])
  {
    var k := FindSpecialty(acc, s);
    if k >= 0 {
      TallyBump(acc, col, s, k);
    } else {
      TallyAppend(acc, col, s);
    }
  }

  /** The reduce callback applied to the next specialty of the column. */
  lemma TallyNext(acc: seq<SpecialtyCount>, col: seq<string>, i: nat)
    requires i < |col| && Tallies(acc, col[..i])
    ensures Tallies(Tally(acc, col[i]), col[..i + 1])
  {
    assert col[..i + 1] == col[..i] + [col[i]];
    TallyStep(acc, col[..i], col[i]);
  }

  /** A tally of the whole specialty column describes the doctors. */
  lemma TalliesOfDoctors(acc: seq<SpecialtyCount>, doctors: seq<Doctor>)
    requires Tallies(acc, DoctorsPage.SpecialtyColumn(doctors))
    ensures SpecialtyNames(acc) == DoctorsPage.Specialties(doctors)
    ensures forall k :: 0 <= k < |acc| ==> acc[k].count == multiset(DoctorsPage.SpecialtyColumn(doctors))[acc[k].specialty]
    ensures SumCounts(acc) == |doctors|
  {
  }

  /** `specialtyData`: the reduce over the doctors. The result lists each
      specialty once, in first-occurrence order, with the number of doctors
      that have it; the counts add up to the number of doctors. */
  method SpecialtyData(doctors: seq<Doctor>) returns (acc: seq<SpecialtyCount>)
    ensures SpecialtyNames(acc) == DoctorsPage.Specialties(doctors)
    ensures forall k :: 0 <= k < |acc| ==> acc[k].count == multiset(DoctorsPage.SpecialtyColumn(doctors))[acc[k].specialty]
    ensures SumCounts(acc) == |doctors|
  {
    var col := DoctorsPage.SpecialtyColumn(doctors);
    acc := [];
    var i := 0;
    while i < |doctors|
      invariant 0 <= i <= |doctors|
      invariant Tallies(acc, col[..i])
    {
      TallyNext(acc, col, i);
      acc := Tally(acc, col[i]);
      i := i + 1;
    }
    assert col[..i] == col;
    TalliesOfDoctors(acc, doctors);
  }

  // ---------------------------------------------------------------------------
  // Total revenue
  // ---------------------------------------------------------------------------

  /** `doctor?.consultationFee || 0` for the first doctor with the id. */
  function FeeOf(doctors: seq<Doctor>, id: string): nat
  {
    match FindDoctor(doctors, id)
    case Some(d) => d.consultationFee
    case None => 0
  }

  /** The reduce over the completed appointments. */
  function SumFees(completed: seq<Appointment>, doctors: seq<Doctor>): nat
  {
    if completed == [] then 0 else FeeOf(doctors, completed[0].doctorId) + SumFees(completed[1..], doctors)
  }

  /** `totalRevenue`: the fee of each completed appointment's doctor, 0 for an
      appointment whose doctor is not in the list. */
  function TotalRevenue(apts: seq<Appointment>, doctors: seq<Doctor>): nat
  {
    SumFees(Filter(apts, HasStatus(Completed)), doctors)
  }

  /** The fee of the first appointment, if it is completed, plus the rest. */
  lemma TotalRevenueStep(apts: seq<Appointment>, doctors: seq<Doctor>)
    requires apts != []
    ensures TotalRevenue(apts, doctors) ==
      (if apts[0].status == Completed then FeeOf(doctors, apts[0].doctorId) else 0) + TotalRevenue(apts[1..], doctors)
  {
    var f := Filter(apts, HasStatus(Completed));
    if apts[0].status == Completed {
      assert f == [apts[0]] + Filter(apts[1..], HasStatus(Completed));
      assert f[1..] == Filter(apts[1..], HasStatus(Completed));
    } else {
      assert !HasStatus(Completed)(apts[0]);
      assert f == Filter(apts[1..], HasStatus(Completed));
    }
  }

  /** No completed appointment names a listed doctor: the revenue is 0. */
  lemma {:induction false} NoMatchNoRevenue(apts: seq<Appointment>, doctors: seq<Doctor>)
    requires forall a :: a in apts && a.status == Completed ==> FindDoctor(doctors, a.doctorId).None?
    ensures TotalRevenue(apts, doctors) == 0
    decreases |apts|
  {
    if apts != [] {
      TotalRevenueStep(apts, doctors);
      assert apts[0] in apts;
      NoMatchNoRevenue(apts[1..], doctors);
    }
  }

  predicate DistinctIds(doctors: seq<Doctor>)
  {
    forall i, j :: 0 <= i < j < |doctors| ==> doctors[i].id != doctors[j].id
  }

  /** What an appointment adds to a doctor's revenue. */
  function Share(a: Appointment, d: Doctor): nat
  {
    if a.doctorId == d.id && a.status == Completed then d.consultationFee else 0
  }

  function ShareSum(a: Appointment, doctors: seq<Doctor>): nat
  {
    if doctors == [] then 0 else Share(a, doctors[0]) + ShareSum(a, doctors[1..])
  }

  lemma CompletedForStep(apts: seq<Appointment>, id: string)
    requires apts != []
    ensures CompletedFor(apts, id) ==
      CompletedFor(apts[1..], id) + (if apts[0].doctorId == id && apts[0].status == Completed then 1 else 0)
  {
    var p := ForDoctor(id);
    var q := HasStatus(Completed);
    var head := if p(apts[0]) then [apts[0]] else [];
    assert Filter(apts, p) == head + Filter(apts[1..], p);
    FilterAppend(head, Filter(apts[1..], p), q);
    if head != [] {
      assert Filter(head, q) == (if q(apts[0]) then [apts[0]] else []) + Filter([], q);
    }
  }

  /** One doctor's revenue gains that doctor's share of the first appointment. */
  lemma RevenueHead(d: Doctor, apts: seq<Appointment>)
    requires apts != []
    ensures StatsOf(d, apts).revenue == StatsOf(d, apts[1..]).revenue + Share(apts[0], d)
  {
    var hit := apts[0].doctorId == d.id && apts[0].status == Completed;
    CompletedForStep(apts, d.id);
    MulStep(CompletedFor(apts[1..], d.id), d.consultationFee, hit);
  }

  lemma MulStep(c: nat, f: nat, hit: bool)
    ensures (c + if hit then 1 else 0) * f == c * f + if hit then f else 0
  {
  }

  lemma {:induction false} RevenueStep(doctors: seq<Doctor>, apts: seq<Appointment>)
    requires apts != []
    ensures SumRevenue(AppointmentsPerDoctor(doctors, apts)) ==
      SumRevenue(AppointmentsPerDoctor(doctors, apts[1..])) + ShareSum(apts[0], doctors)
    decreases |doctors|
  {
    if doctors != [] {
      RevenueStep(doctors[1..], apts);
      RevenueHead(doctors[0], apts);
    }
  }

  lemma {:induction false} ShareSumNone(a: Appointment, doctors: seq<Doctor>)
    requires forall d :: d in doctors ==> d.id != a.doctorId
    ensures ShareSum(a, doctors) == 0
    decreases |doctors|
  {
    if doctors != [] {
      assert doctors[0] in doctors;
      ShareSumNone(a, doctors[1..]);
    }
  }

  lemma {:induction false} ShareSumIsFee(a: Appointment, doctors: seq<Doctor>)
    requires DistinctIds(doctors)
    ensures ShareSum(a, doctors) == if a.status == Completed then FeeOf(doctors, a.doctorId) else 0
    decreases |doctors|
  {
    if doctors != [] {
      if doctors[0].id == a.doctorId {
        forall d | d in doctors[1..]
          ensures d.id != a.doctorId
        {
          var j :| 0 <= j < |doctors[1..]| && doctors[1..][j] == d;
          assert doctors[j + 1] == d;
        }
        ShareSumNone(a, doctors[1..]);
      } else {
        ShareSumIsFee(a, doctors[1..]);
      }
    }
  }

  lemma {:induction false} NoAppointmentsNoRevenue(doctors: seq<Doctor>)
    ensures SumRevenue(AppointmentsPerDoctor(doctors, [])) == 0
    decreases |doctors|
  {
    if doctors != [] {
      NoAppointmentsNoRevenue(doctors[1..]);
    }
  }

  /** With distinct doctor ids, the "Total Revenue" card equals the sum of the
      per-doctor revenues: completed appointments of unlisted doctors count in
      neither. */
  lemma {:induction false} RevenueAgrees(apts: seq<Appointment>, doctors: seq<Doctor>)
    requires DistinctIds(doctors)
    ensures TotalRevenue(apts, doctors) == SumRevenue(AppointmentsPerDoctor(doctors, apts))
    decreases |apts|
  {
    if apts == [] {
      NoAppointmentsNoRevenue(doctors);
    } else {
      RevenueAgrees(apts[1..], doctors);
      TotalRevenueStep(apts, doctors);
      RevenueStep(doctors, apts);
      ShareSumIsFee(apts[0], doctors);
    }
  }

  /** When every listed doctor charges the dashboard's flat fee and every
      completed appointment names a listed doctor, the analytics revenue equals
      the dashboard's mock revenue. */
  lemma {:induction false} FlatFeeRevenue(apts: seq<Appointment>, doctors: seq<Doctor>)
    requires forall d :: d in doctors ==> d.consultationFee == AdminPage.MockFee
    requires forall a :: a in apts && a.status == Completed ==> FindDoctor(doctors, a.doctorId).Some?
    ensures TotalRevenue(apts, doctors) == AdminPage.MockFee * StatusCount(apts, Completed)
    decreases |apts|
  {
    if apts != [] {
      TotalRevenueStep(apts, doctors);
      FlatFeeRevenue(apts[1..], doctors);
      assert apts[0] in apts;
      var q := HasStatus(Completed);
      assert Filter(apts, q) == (if q(apts[0]) then [apts[0]] else []) + Filter(apts[1..], q);
    }
  }

  // ---------------------------------------------------------------------------
  // Key metric cards
  // ---------------------------------------------------------------------------

  /** The integer quotient, by repeated subtraction. */
  function Quotient(x: nat, m: nat): (q: nat)
    requires m > 0
    ensures m * q <= x < m * q + m
    decreases x
  {
    if x < m then 0 else 1 + Quotient(x - m, m)
  }

  lemma {:induction false} QuotientMonotone(x: nat, y: nat, m: nat)
    requires m > 0 && x <= y
    ensures Quotient(x, m) <= Quotient(y, m)
    decreases y
  {
    if x >= m {
      QuotientMonotone(x - m, y - m, m);
    }
  }

  lemma {:induction false} QuotientExact(k: nat, r: nat, m: nat)
    requires r < m
    ensures Quotient(m * k + r, m) == k
    decreases k
  {
    if k > 0 {
      assert m * k + r - m == m * (k - 1) + r;
      QuotientExact(k - 1, r, m);
    }
  }

  /** `Math.round(a / b)` on exact quotients: the nearest integer, halves
      rounding up. */
  function RoundedRatio(a: nat, b: nat): (r: nat)
    requires b > 0
    ensures 2 * b * r <= 2 * a + b < 2 * b * r + 2 * b
  {
    Quotient(2 * a + b, 2 * b)
  }

  /** "Avg. per Doctor": appointments per doctor, rounded; 0 with no doctors. */
  function AveragePerDoctor(apts: seq<Appointment>, doctors: seq<Doctor>): (r: nat)
    ensures |doctors| > 0 ==> 2 * |apts| < |doctors| * (2 * r + 1) && |doctors| * (2 * r - 1) <= 2 * |apts|
    ensures |doctors| == 0 ==> r == 0
  {
    if |doctors| > 0 then RoundedRatio(|apts|, |doctors|) else 0
  }

  /** "Completion Rate": the rounded percentage of completed appointments; 0
      with no appointments. */
  function CompletionRate(apts: seq<Appointment>): (r: nat)
    ensures |apts| > 0 ==> 2 * |apts| * r <= 200 * StatusCount(apts, Completed) + |apts| < 2 * |apts| * r + 2 * |apts|
    ensures |apts| == 0 ==> r == 0
  {
    if |apts| > 0 then RoundedRatio(100 * StatusCount(apts, Completed), |apts|) else 0
  }

  /** The rate is a percentage: at most 100, exactly 100 when every
      appointment is completed, and 0 when none is. */
  lemma CompletionRateBounds(apts: seq<Appointment>)
    ensures CompletionRate(apts) <= 100
    ensures |apts| > 0 && StatusCount(apts, Completed) == |apts| ==> CompletionRate(apts) == 100
    ensures StatusCount(apts, Completed) == 0 ==> CompletionRate(apts) == 0
  {
    var n := |apts|;
    if n > 0 {
      var c := StatusCount(apts, Completed);
      assert 201 * n == 2 * n * 100 + n;
      QuotientExact(100, n, 2 * n);
      QuotientMonotone(200 * c + n, 201 * n, 2 * n);
      QuotientExact(0, n, 2 * n);
      assert 2 * n * 0 + n == n;
    }
  }

  /** The analytics tab's state: the lists it loads and its loading flag. */
  class Analytics {
    var appointments: seq<Appointment>
    var doctors: seq<Doctor>
    var users: seq<AdminPage.SampleUser>
    var isLoading: bool

    constructor ()
      ensures appointments == [] && doctors == [] && users == [] && isLoading
    {
      appointments := [];
      doctors := [];
      users := [];
      isLoading := true;
    }

    /** The effect loading the tab: each successful reply with data replaces
        its list; the users are the built-in sample users. */
    method FetchData(apts: ApiResponse<seq<Appointment>>, docs: ApiResponse<seq<Doctor>>, sampleUsers: seq<AdminPage.SampleUser>)
      modifies this`appointments, this`doctors, this`users, this`isLoading
      ensures appointments == (if apts.success && apts.data.Some? then apts.data.value else old(appointments))
      ensures doctors == (if docs.success && docs.data.Some? then docs.data.value else old(doctors))
      ensures users == sampleUsers && !isLoading
    {
      if apts.success && apts.data.Some? {
        appointments := apts.data.value;
      }
      if docs.success && docs.data.Some? {
        doctors := docs.data.value;
      }
      users := sampleUsers;
      isLoading := false;
    }

    /** "Active Users": the users whose flag is set, out of all of them. */
    function ActiveUsers(): (r: nat)
      reads this
      ensures r <= |users|
    {
      AdminPage.ActiveUsers(users)
    }
  }
}
