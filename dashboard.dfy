/** The dashboard's "upcoming appointments" card: active appointments at or
    after now, earliest first, at most three. */
module Dashboard {
  import opened Wrappers
  import opened Types
  import opened Dates
  import opened Lists
  import Appointments

  /** The instant of an appointment's date and time, 0 when it does not parse
      (such entries are filtered out before the sort). */
  function Key(a: Appointment): int
  {
    match Instant(a.appointmentDate, a.appointmentTime)
    case Some(t) => t
    case None => 0
  }

  /** `new Date(date + "T" + time) >= new Date()`: an Invalid Date compares
      false, so an unparseable appointment is dropped. */
  predicate AtOrAfter(a: Appointment, now: int)
  {
    var t := Instant(a.appointmentDate, a.appointmentTime);
    t.Some? && t.value >= now
  }

  /** The two `filter` calls: active status, then at or after now. */
  function Kept(apts: seq<Appointment>, now: int): (r: seq<Appointment>)
    ensures forall a :: a in r <==> a in apts && Appointments.Active(a.status) && AtOrAfter(a, now)
  {
    Filter(Filter(apts, (a: Appointment) => Appointments.Active(a.status)), a => AtOrAfter(a, now))
  }

  /** The card's list: the sorted kept appointments, cut to three by `slice(0, 3)`. */
  function UpcomingOnDashboard(apts: seq<Appointment>, now: int): (r: seq<Appointment>)
    ensures |r| <= 3
  {
    var sorted := SortBy(Kept(apts, now), Key);
    if |sorted| <= 3 then sorted else sorted[..3]
  }

  /** The card holds min(3, n) of the n kept appointments, earliest first, and no
      kept appointment left off the card is earlier than one on it. */
  lemma DashboardEarliest(apts: seq<Appointment>, now: int)
    ensures var kept := Kept(apts, now); var r := UpcomingOnDashboard(apts, now);
      |r| == (if |kept| <= 3 then |kept| else 3) &&
      SortedBy(r, Key) &&
      multiset(r) <= multiset(kept) &&
      (forall a :: a in r ==> a in kept) &&
      (forall a, b :: a in r && b in kept && b !in r ==> Key(a) <= Key(b))
  {
    var kept := Kept(apts, now);
    SortedTop(kept, Key, 3);
  }

  /** The card shows appointments the appointments page lists as upcoming, and
      every upcoming one there whose date and time parse is among the candidates;
      an unparseable one, upcoming there, never reaches the card. */
  lemma SameSetAsAppointmentsPage(apts: seq<Appointment>, now: int, a: Appointment)
    ensures a in Kept(apts, now) ==> a in Appointments.Upcoming(apts, now)
    ensures a in Appointments.Upcoming(apts, now) && Instant(a.appointmentDate, a.appointmentTime).Some? ==> a in Kept(apts, now)
    ensures Instant(a.appointmentDate, a.appointmentTime).None? ==> a !in UpcomingOnDashboard(apts, now)
  {
    DashboardEarliest(apts, now);
  }
}
