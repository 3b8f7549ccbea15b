/** The patient's appointments page: the upcoming/past tabs and the cancel
    button. */
module Appointments {
  import opened Wrappers
  import opened Types
  import opened Dates
  import opened Lists

  /** `isPast(parseISO(date + "T" + time))` at the instant `now`. An unparseable
      date or time gives an Invalid Date, which is never in the past. */
  predicate IsPast(a: Appointment, now: int)
  {
    var t := Instant(a.appointmentDate, a.appointmentTime);
    t.Some? && t.value < now
  }

  /** Statuses of an appointment that is still to take place. */
  predicate Active(s: Status)
  {
    s == Scheduled || s == Confirmed
  }

  predicate IsUpcoming(a: Appointment, now: int)
  {
    Active(a.status) && !IsPast(a, now)
  }

  predicate IsInPast(a: Appointment, now: int)
  {
    a.status == Completed || a.status == Cancelled || a.status == NoShow || (Active(a.status) && IsPast(a, now))
  }

  /** The upcoming tab: active appointments not yet past, in list order. */
  function Upcoming(apts: seq<Appointment>, now: int): (r: seq<Appointment>)
    ensures forall a :: a in r <==> a in apts && Active(a.status) && !IsPast(a, now)
  {
    Filter(apts, a => IsUpcoming(a, now))
  }

  /** The past tab: finished appointments and active ones already past, in list
      order. */
  function Past(apts: seq<Appointment>, now: int): (r: seq<Appointment>)
    ensures forall a :: a in r <==> a in apts && (!Active(a.status) || IsPast(a, now))
  {
    Filter(apts, a => IsInPast(a, now))
  }

  /** The two tabs split the list: every appointment is in exactly one of them,
      once, and each tab keeps the list order (it distributes over
      concatenation). */
  lemma Partition(apts: seq<Appointment>, more: seq<Appointment>, now: int)
    ensures multiset(Upcoming(apts, now)) + multiset(Past(apts, now)) == multiset(apts)
    ensures |Upcoming(apts, now)| + |Past(apts, now)| == |apts|
    ensures Upcoming(apts + more, now) == Upcoming(apts, now) + Upcoming(more, now)
    ensures Past(apts + more, now) == Past(apts, now) + Past(more, now)
  {
    FilterPartition(apts, a => IsUpcoming(a, now), a => IsInPast(a, now));
    FilterAppend(apts, more, a => IsUpcoming(a, now));
    FilterAppend(apts, more, a => IsInPast(a, now));
  }

  /** An active appointment whose date or time does not parse is listed as
      upcoming, whatever `now` is. */
  lemma UnparseableIsUpcoming(a: Appointment, now: int)
    requires Active(a.status) && Instant(a.appointmentDate, a.appointmentTime).None?
    ensures Upcoming([a], now) == [a] && Past([a], now) == []
  {
    assert [a][1..] == [];
  }

  /** The tab an appointment card is shown in. */
  datatype Tab = UpcomingTab | PastTab

  function TabList(apts: seq<Appointment>, now: int, tab: Tab): seq<Appointment>
  {
    if tab == UpcomingTab then Upcoming(apts, now) else Past(apts, now)
  }

  /** The card offers Cancel when actions are shown, which the past tab turns off,
      and the appointment is scheduled. */
  predicate ShowsCancel(tab: Tab, a: Appointment)
  {
    tab == UpcomingTab && a.status == Scheduled
  }

  /** Cancel is offered only for a scheduled appointment that is not yet past. */
  lemma CancelOnlyWhenUpcoming(apts: seq<Appointment>, now: int, tab: Tab, a: Appointment)
    requires a in TabList(apts, now, tab) && ShowsCancel(tab, a)
    ensures a in apts && a.status == Scheduled && !IsPast(a, now)
  {
  }

  function WithId(id: string): Appointment -> bool
  {
    (a: Appointment) => a.id == id
  }

  function MarkCancelled(a: Appointment): Appointment
  {
    a.(status := Cancelled)
  }

  /** The optimistic update after a successful cancel: entries with the id become
      cancelled, with every other field, every other entry and the length
      unchanged. */
  function CancelById(apts: seq<Appointment>, id: string): (r: seq<Appointment>)
    ensures |r| == |apts|
    ensures forall i :: 0 <= i < |apts| ==>
      r[i].id == apts[i].id &&
      (apts[i].id == id ==> r[i] == apts[i].(status := Cancelled)) &&
      (apts[i].id != id ==> r[i] == apts[i])
  {
    MapWhere(apts, WithId(id), MarkCancelled)
  }

  /** After the cancel the upcoming tab is the old one without the cancelled id,
      in the same order. */
  lemma {:induction false} CancelLeavesUpcoming(apts: seq<Appointment>, id: string, now: int)
    ensures Upcoming(CancelById(apts, id), now) == Filter(Upcoming(apts, now), (a: Appointment) => a.id != id)
    decreases |apts|
  {
    var up := a => IsUpcoming(a, now);
    var other := (a: Appointment) => a.id != id;
    if apts != [] {
      var c := CancelById(apts, id);
      CancelLeavesUpcoming(apts[1..], id, now);
      assert CancelById(apts, id)[1..] == CancelById(apts[1..], id);
      assert c == [c[0]] + c[1..];
      FilterAppend([c[0]], c[1..], up);
      FilterAppend([apts[0]], apts[1..], up);
      assert apts == [apts[0]] + apts[1..];
      var u0 := if up(apts[0]) then [apts[0]] else [];
      FilterAppend(u0, Filter(apts[1..], up), other);
      assert Filter([c[0]], up) == Filter(Filter([apts[0]], up), other);
    }
  }

  class Page {
    var appointments: seq<Appointment>
    var isLoading: bool
    /** The last `alert` shown, if any. */
    var alert: Option<string>

    constructor ()
      ensures appointments == [] && isLoading && alert.None?
    {
      appointments := [];
      isLoading := true;
      alert := None;
    }

    /** `fetchData`. Without a user it returns before the `try`, so the page stays
        loading; otherwise a successful reply with data replaces the list, any
        other reply leaves it, and loading ends. */
    method FetchData(hasUser: bool, response: ApiResponse<seq<Appointment>>)
      modifies this`appointments, this`isLoading
      ensures !hasUser ==> appointments == old(appointments) && isLoading == old(isLoading)
      ensures hasUser && response.success && response.data.Some? ==> appointments == response.data.value
      ensures hasUser && !(response.success && response.data.Some?) ==> appointments == old(appointments)
      ensures hasUser ==> !isLoading
    {
      if !hasUser {
        return;
      }
      if response.success && response.data.Some? {
        appointments := response.data.value;
      }
      isLoading := false;
    }

    /** `handleCancelAppointment`: a declined confirmation does nothing; a
        successful cancel marks the entries with the id cancelled; a failed one
        alerts the error and leaves the list. `requested` says whether the
        cancel request was sent. */
    method HandleCancel(id: string, confirmed: bool, result: ApiResponse<Appointment>) returns (requested: bool)
      modifies this`appointments, this`alert
      ensures requested == confirmed
      ensures !confirmed ==> appointments == old(appointments) && alert == old(alert)
      ensures confirmed && result.success ==> appointments == CancelById(old(appointments), id) && alert == old(alert)
      ensures confirmed && !result.success ==>
        appointments == old(appointments) && alert == Some("Failed to cancel appointment: " + result.error.GetOr("undefined"))
    {
      if !confirmed {
        return false;
      }
      if result.success {
        appointments := CancelById(appointments, id);
      } else {
        alert := Some("Failed to cancel appointment: " + result.error.GetOr("undefined"));
      }
      return true;
    }
  }
}
