/** The records the pages exchange: users, doctors and their weekly availability,
    appointments, booking requests, API responses and chat messages. */
module Types {
  import opened Wrappers

  /** The five appointment states. */
  datatype Status = Scheduled | Confirmed | Completed | Cancelled | NoShow

  /** The three payment states. */
  datatype PaymentStatus = Pending | Paid | Refunded

  /** The wire name of a status. */
  function StatusName(s: Status): string
  {
    match s
    case Scheduled => "scheduled"
    case Confirmed => "confirmed"
    case Completed => "completed"
    case Cancelled => "cancelled"
    case NoShow => "no-show"
  }

  /** Reads a status from its wire name; every other text is not a status. */
  function ParseStatus(t: string): (r: Option<Status>)
    ensures r.Some? ==> StatusName(r.value) == t
  {
    if t == "scheduled" then Some(Scheduled)
    else if t == "confirmed" then Some(Confirmed)
    else if t == "completed" then Some(Completed)
    else if t == "cancelled" then Some(Cancelled)
    else if t == "no-show" then Some(NoShow)
    else None
  }

  /** A status is exactly one of the five names: every status reads back from its
      name, and a text is a status only if it is one of those names. */
  lemma StatusNames(s: Status, t: string)
    ensures ParseStatus(StatusName(s)) == Some(s)
    ensures ParseStatus(t).Some? <==> t in {"scheduled", "confirmed", "completed", "cancelled", "no-show"}
  {
  }

  function PaymentStatusName(p: PaymentStatus): string
  {
    match p
    case Pending => "pending"
    case Paid => "paid"
    case Refunded => "refunded"
  }

  function ParsePaymentStatus(t: string): (r: Option<PaymentStatus>)
    ensures r.Some? ==> PaymentStatusName(r.value) == t
  {
    if t == "pending" then Some(Pending)
    else if t == "paid" then Some(Paid)
    else if t == "refunded" then Some(Refunded)
    else None
  }

  /** A payment status is exactly one of "pending", "paid", "refunded". */
  lemma PaymentStatusNames(p: PaymentStatus, t: string)
    ensures ParsePaymentStatus(PaymentStatusName(p)) == Some(p)
    ensures ParsePaymentStatus(t).Some? <==> t in {"pending", "paid", "refunded"}
  {
  }

  /** 0 = Sunday ... 6 = Saturday */
  type DayOfWeek = d: nat | d <= 6

  datatype DoctorAvailability = DoctorAvailability(
    dayOfWeek: DayOfWeek,
    startTime: string,
    endTime: string,
    isAvailable: bool)

  /** A user as the front end keeps it (the password is never held). */
  datatype User = User(
    id: string,
    email: string,
    name: string,
    phone_number: string,
    DOB: string,
    image_url: string,
    is_adman: string,
    createdAt: string,
    updatedAt: string)

  /** A doctor; fees are whole currency units. */
  datatype Doctor = Doctor(
    id: string,
    name: string,
    firstName: Option<string>,
    lastName: Option<string>,
    email: string,
    phone: string,
    specialty: string,
    bio: Option<string>,
    consultationFee: nat,
    availability: Option<seq<DoctorAvailability>>,
    isActive: bool)

  datatype Appointment = Appointment(
    id: string,
    userId: string,
    doctorId: string,
    appointmentDate: string,
    appointmentTime: string,
    reason: string,
    status: Status,
    notes: string,
    paymentStatus: PaymentStatus,
    createdAt: string,
    updatedAt: string)

  /** Exactly the four fields a booking sends. */
  datatype BookAppointmentRequest = BookAppointmentRequest(
    doctorId: string,
    appointmentDate: string,
    appointmentTime: string,
    reason: string)

  /** What every API function resolves to: a success flag with optional data,
      message and error. */
  datatype ApiResponse<T> = ApiResponse(success: bool, data: Option<T>, message: Option<string>, error: Option<string>)

  function Succeed<T>(data: T): (r: ApiResponse<T>)
    ensures r.success && r.data == Some(data) && r.error.None?
  {
    ApiResponse(true, Some(data), None, None)
  }

  function Fail<T>(error: string): (r: ApiResponse<T>)
    ensures !r.success && r.data.None? && r.error == Some(error)
  {
    ApiResponse(false, None, None, Some(error))
  }

  datatype Sender = UserSender | BotSender

  function SenderName(s: Sender): string
  {
    match s
    case UserSender => "user"
    case BotSender => "bot"
  }

  /** The two senders have different names, so the wire value tells them apart. */
  lemma SenderNamesDistinct(a: Sender, b: Sender)
    ensures SenderName(a) == SenderName(b) <==> a == b
    ensures SenderName(a) in {"user", "bot"}
  {
  }

  datatype ChatMessage = ChatMessage(id: string, message: string, sender: Sender, timestamp: string)
}
