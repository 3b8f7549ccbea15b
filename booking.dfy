/** The booking page: choosing a doctor, which calendar days can be picked, the
    checks before a booking is sent, and the hand-off to the payment checkout. The
    calendar hands over whole days, so dates are `CalendarDate`s; today is a
    parameter. */
module Booking {
  import opened Wrappers
  import opened Text
  import opened Dates
  import opened Types

  /** The time slots offered: half-hourly from 09:00 to 11:30 and from 14:00 to
      16:30. */
  const TimeSlots: seq<string> := ["09:00", "09:30", "10:00", "10:30", "11:00", "11:30",
                                   "14:00", "14:30", "15:00", "15:30", "16:00", "16:30"]

  /** Twelve slots, each a valid time, in increasing order, none during the
      12:00-14:00 break. */
  lemma TimeSlotsWellFormed()
    ensures |TimeSlots| == 12
    ensures forall i :: 0 <= i < |TimeSlots| ==> ParseTimeMs(TimeSlots[i]).Some?
    ensures forall i, j :: 0 <= i < j < |TimeSlots| ==> ParseTimeMs(TimeSlots[i]).value < ParseTimeMs(TimeSlots[j]).value
    ensures forall i :: 0 <= i < |TimeSlots| ==>
      9 * 3600000 <= ParseTimeMs(TimeSlots[i]).value <= 16 * 3600000 + 30 * 60000 &&
      !(12 * 3600000 <= ParseTimeMs(TimeSlots[i]).value < 14 * 3600000)
  {
    SlotTimes();
  }

  const SlotMinutes: seq<int> := [540, 570, 600, 630, 660, 690, 840, 870, 900, 930, 960, 990]

  lemma SlotTimes()
    ensures forall i :: 0 <= i < |TimeSlots| ==> ParseTimeMs(TimeSlots[i]) == Some(SlotMinutes[i] * 60000)
  {
    assert ParseTimeMs("09:00") == Some(540 * 60000);
    assert ParseTimeMs("09:30") == Some(570 * 60000);
    assert ParseTimeMs("10:00") == Some(600 * 60000);
    assert ParseTimeMs("10:30") == Some(630 * 60000);
    assert ParseTimeMs("11:00") == Some(660 * 60000);
    assert ParseTimeMs("11:30") == Some(690 * 60000);
    assert ParseTimeMs("14:00") == Some(840 * 60000);
    assert ParseTimeMs("14:30") == Some(870 * 60000);
    assert ParseTimeMs("15:00") == Some(900 * 60000);
    assert ParseTimeMs("15:30") == Some(930 * 60000);
    assert ParseTimeMs("16:00") == Some(960 * 60000);
    assert ParseTimeMs("16:30") == Some(990 * 60000);
  }

  /** The first doctor with the given id (`doctors.find`), if any. */
  function FindDoctor(doctors: seq<Doctor>, id: string): (r: Option<Doctor>)
    ensures r.None? <==> forall k :: 0 <= k < |doctors| ==> doctors[k].id != id
    ensures r.Some? ==> exists k :: (0 <= k < |doctors| && doctors[k] == r.value && r.value.id == id &&
                                     forall j :: 0 <= j < k ==> doctors[j].id != id)
  {
    if |doctors| == 0 then None
    else if doctors[0].id == id then Some(doctors[0])
    else
      var r := FindDoctor(doctors[1..], id);
      assert forall k :: 1 <= k < |doctors| ==> doctors[k] == doctors[1..][k - 1];
      if r.Some? then
        var k :| 0 <= k < |doctors[1..]| && doctors[1..][k] == r.value && r.value.id == id &&
          forall j :: 0 <= j < k ==> doctors[1..][j].id != id;
        assert doctors[k + 1] == r.value;
        r
      else r
  }

  /** The first availability entry for a weekday (`availability.find`). */
  function FindDay(entries: seq<DoctorAvailability>, day: nat): (r: Option<DoctorAvailability>)
    ensures r.None? <==> forall k :: 0 <= k < |entries| ==> entries[k].dayOfWeek != day
    ensures r.Some? ==> exists k :: (0 <= k < |entries| && entries[k] == r.value && r.value.dayOfWeek == day &&
                                     forall j :: 0 <= j < k ==> entries[j].dayOfWeek != day)
  {
    if |entries| == 0 then None
    else if entries[0].dayOfWeek == day then Some(entries[0])
    else
      var r := FindDay(entries[1..], day);
      assert forall k :: 1 <= k < |entries| ==> entries[k] == entries[1..][k - 1];
      if r.Some? then
        var k :| 0 <= k < |entries[1..]| && entries[1..][k] == r.value && r.value.dayOfWeek == day &&
          forall j :: 0 <= j < k ==> entries[1..][j].dayOfWeek != day;
        assert entries[k + 1] == r.value;
        r
      else r
  }

  /** `isDateAvailable`: whether the calendar lets `date` be picked. */
  function IsDateAvailable(selected: Option<Doctor>, date: CalendarDate, today: CalendarDate): bool
  {
    if selected.None? then false
    else if DayBefore(date, today) then false
    else
      var avail := selected.value.availability;
      if avail.Some? && |avail.value| > 0 then
        var entry := FindDay(avail.value, Weekday(date));
        entry.Some? && entry.value.isAvailable
      else
        1 <= Weekday(date) <= 5
  }

  /** Nothing is available before a doctor is chosen or before today. For a doctor
      with availability entries, a day is available exactly when the first entry
      for its weekday is marked available (no entry: unavailable). For a doctor
      without entries, exactly Monday to Friday are available. */
  lemma DateAvailability(selected: Option<Doctor>, date: CalendarDate, today: CalendarDate)
    ensures selected.None? || DayBefore(date, today) ==> !IsDateAvailable(selected, date, today)
    ensures selected.Some? && !DayBefore(date, today) && selected.value.availability.Some? && |selected.value.availability.value| > 0 ==>
      (IsDateAvailable(selected, date, today) <==>
        exists k :: 0 <= k < |selected.value.availability.value| &&
          selected.value.availability.value[k].dayOfWeek == Weekday(date) &&
          selected.value.availability.value[k].isAvailable &&
          forall j :: 0 <= j < k ==> selected.value.availability.value[j].dayOfWeek != Weekday(date))
    ensures selected.Some? && !DayBefore(date, today) && (selected.value.availability.None? || |selected.value.availability.value| == 0) ==>
      (IsDateAvailable(selected, date, today) <==> Weekday(date) != 0 && Weekday(date) != 6)
  {
    if selected.Some? && !DayBefore(date, today) && selected.value.availability.Some? && |selected.value.availability.value| > 0 {
      var es := selected.value.availability.value;
      var wd := Weekday(date);
      if exists k :: 0 <= k < |es| && es[k].dayOfWeek == wd && es[k].isAvailable && forall j :: 0 <= j < k ==> es[j].dayOfWeek != wd {
        var k :| 0 <= k < |es| && es[k].dayOfWeek == wd && es[k].isAvailable && forall j :: 0 <= j < k ==> es[j].dayOfWeek != wd;
        var e := FindDay(es, wd);
        var k' :| 0 <= k' < |es| && es[k'] == e.value && e.value.dayOfWeek == wd && forall j :: 0 <= j < k' ==> es[j].dayOfWeek != wd;
        assert k == k';
      }
    }
  }

  // ---------------------------------------------------------------------------
  // Submitting a booking
  // ---------------------------------------------------------------------------

  const FillAllFields := "Please fill in all required fields"
  const MustLogIn := "You must be logged in to book an appointment"
  const PaymentSessionFailed := "Failed to create payment session"
  const NetworkErrorOccurred := "Network error occurred"

  function PastDateMessage(today: CalendarDate): string
  {
    "❌ Invalid Date - Please select a date from today (" + FormatYmd(today) + ") onwards. You cannot book appointments for past dates."
  }

  /** The first check of the booking form that fails, in the page's order, or
      None when the booking may be sent. */
  function BookingCheck(doctor: Option<Doctor>, date: Option<CalendarDate>, time: string, reason: string, loggedIn: bool, today: CalendarDate): (r: Option<string>)
    ensures (doctor.None? || date.None? || time == "" || Trim(reason) == "") ==> r == Some(FillAllFields)
    ensures doctor.Some? && date.Some? && time != "" && Trim(reason) != "" && !loggedIn ==> r == Some(MustLogIn)
    ensures r.None? <==> doctor.Some? && date.Some? && time != "" && Trim(reason) != "" && loggedIn && !DayBefore(date.value, today)
  {
    if doctor.None? || date.None? || time == "" || Trim(reason) == "" then Some(FillAllFields)
    else if !loggedIn then Some(MustLogIn)
    else if DayBefore(date.value, today) then Some(PastDateMessage(today))
    else None
  }

  /** Only whole days are compared: a booking for today passes the date check,
      and one for an earlier day is refused with a message naming today as
      yyyy-MM-dd. */
  lemma PastDateIsDayGranular(doctor: Doctor, date: CalendarDate, time: string, reason: string, today: CalendarDate)
    requires time != "" && Trim(reason) != ""
    ensures date == today ==> BookingCheck(Some(doctor), Some(date), time, reason, true, today).None?
    ensures DayBefore(date, today) ==>
      BookingCheck(Some(doctor), Some(date), time, reason, true, today) == Some(PastDateMessage(today))
    ensures Contains(PastDateMessage(today), FormatYmd(today))
  {
    var prefix := "❌ Invalid Date - Please select a date from today (";
    var m := PastDateMessage(today);
    assert m[|prefix|..|prefix| + |FormatYmd(today)|] == FormatYmd(today);
    ContainsAt(m, FormatYmd(today), |prefix|);
  }

  /** The request a booking sends. */
  function BookingRequest(doctor: Doctor, date: CalendarDate, time: string, reason: string): BookAppointmentRequest
  {
    BookAppointmentRequest(doctor.id, FormatYmd(date), time, Trim(reason))
  }

  /** The request carries the doctor's id, the chosen time, the trimmed reason
      (which is its own trim) and the date as yyyy-MM-dd text that reads back as
      the chosen date. */
  lemma BookingRequestFields(doctor: Doctor, date: CalendarDate, time: string, reason: string)
    ensures var req := BookingRequest(doctor, date, time, reason);
      req.doctorId == doctor.id && req.appointmentTime == time &&
      req.reason == Trim(reason) && Trim(req.reason) == req.reason &&
      (ValidDate(date) && date.year <= 9999 ==> ParseYmd(req.appointmentDate) == Some(date))
  {
    DateReadsBack(date);
    TrimIdempotent(reason);
  }

  lemma DateReadsBack(date: CalendarDate)
    ensures ValidDate(date) && date.year <= 9999 ==> ParseYmd(FormatYmd(date)) == Some(date)
  {
    if ValidDate(date) && date.year <= 9999 {
      ParseFormatYmd(date);
    }
  }

  /** The data of a booking reply. */
  datatype CheckoutData = CheckoutData(checkout_url: Option<string>)

  /** How the call to `bookAppointment` ended. */
  datatype BookingCall = CallReturned(response: ApiResponse<CheckoutData>) | CallThrew

  /** Whether the reply leads to the checkout page. */
  predicate LeadsToCheckout(call: BookingCall)
  {
    call.CallReturned? && call.response.success && call.response.data.Some? && Truthy(call.response.data.value.checkout_url)
  }

  /** The page's state. */
  class BookingPage {
    var doctors: seq<Doctor>
    var selectedDoctor: Option<Doctor>
    var selectedDate: Option<CalendarDate>
    var selectedTime: string
    var reason: string
    var isLoading: bool
    var error: string
    /** Where `window.location.href` was sent, if anywhere. */
    var redirect: Option<string>

    constructor (doctors0: seq<Doctor>)
      ensures doctors == doctors0 && selectedDoctor.None? && selectedDate.None? && selectedTime == "" && reason == ""
      ensures !isLoading && error == "" && redirect.None?
    {
      doctors := doctors0;
      selectedDoctor := None;
      selectedDate := None;
      selectedTime := "";
      reason := "";
      isLoading := false;
      error := "";
      redirect := None;
    }

    /** `handleDoctorSelect`: choose the doctor with that id (none if there is no
        such doctor) and forget the chosen date and time. */
    method SelectDoctor(doctorId: string)
      modifies this`selectedDoctor, this`selectedDate, this`selectedTime
      ensures selectedDoctor == FindDoctor(doctors, doctorId)
      ensures selectedDate.None? && selectedTime == ""
    {
      selectedDoctor := FindDoctor(doctors, doctorId);
      selectedDate := None;
      selectedTime := "";
    }

    /** `handleSubmit`. `sent` is the request handed to `bookAppointment`, None when
        a check failed; `call` is how that call ended. A failed check only sets
        its message. Otherwise the request is sent, loading ends, and the reply
        either redirects to the checkout (the error having been cleared) or sets
        the reply's error, the payment-session default, or the network message. */
    method Submit(loggedIn: bool, today: CalendarDate, call: BookingCall) returns (sent: Option<BookAppointmentRequest>)
      modifies this`error, this`isLoading, this`redirect
      ensures var check := BookingCheck(old(selectedDoctor), old(selectedDate), old(selectedTime), old(reason), loggedIn, today);
        check.Some? ==> sent.None? && error == check.value && isLoading == old(isLoading) && redirect == old(redirect)
      ensures var check := BookingCheck(old(selectedDoctor), old(selectedDate), old(selectedTime), old(reason), loggedIn, today);
        check.None? ==> sent == Some(BookingRequest(old(selectedDoctor).value, old(selectedDate).value, old(selectedTime), old(reason))) && !isLoading
      ensures sent.Some? && LeadsToCheckout(call) ==> redirect == call.response.data.value.checkout_url && error == ""
      ensures sent.Some? && call.CallReturned? && !LeadsToCheckout(call) ==>
        error == OrElse(call.response.error, PaymentSessionFailed) && redirect == old(redirect)
      ensures sent.Some? && call.CallThrew? ==> error == NetworkErrorOccurred && redirect == old(redirect)
    {
      var check := BookingCheck(selectedDoctor, selectedDate, selectedTime, reason, loggedIn, today);
      if check.Some? {
        error := check.value;
        return None;
      }
      var request := BookingRequest(selectedDoctor.value, selectedDate.value, selectedTime, reason);
      Send(call);
      sent := Some(request);
    }

    /** The request is on its way: clear the error and start loading, then
        await the reply. */
    method Send(call: BookingCall)
      modifies this`error, this`isLoading, this`redirect
      ensures LeadsToCheckout(call) ==> redirect == call.response.data.value.checkout_url && error == ""
      ensures call.CallReturned? && !LeadsToCheckout(call) ==>
        error == OrElse(call.response.error, PaymentSessionFailed) && redirect == old(redirect)
      ensures call.CallThrew? ==> error == NetworkErrorOccurred && redirect == old(redirect)
      ensures !isLoading
    {
      isLoading := true;
      error := "";
      AwaitBooking(call);
    }

    /** The part of `handleSubmit` after the request is sent: redirect or report
        the error, then end loading. */
    method AwaitBooking(call: BookingCall)
      modifies this`error, this`isLoading, this`redirect
      ensures LeadsToCheckout(call) ==> redirect == call.response.data.value.checkout_url && error == old(error)
      ensures call.CallReturned? && !LeadsToCheckout(call) ==>
        error == OrElse(call.response.error, PaymentSessionFailed) && redirect == old(redirect)
      ensures call.CallThrew? ==> error == NetworkErrorOccurred && redirect == old(redirect)
      ensures !isLoading
    {
      match call {
        case CallReturned(response) =>
          if LeadsToCheckout(call) {
            redirect := response.data.value.checkout_url;
          } else {
            error := OrElse(response.error, PaymentSessionFailed);
          }
        case CallThrew =>
          error := NetworkErrorOccurred;
      }
      isLoading := false;
    }
  }
}
