/** The API layer: how raw backend records become front-end records, how request
    payloads are built, and the login and registration flows with the token and
    user they store. Each API function is modelled on the outcome of the client
    call it makes; `new Date().toISOString()` is the parameter `nowIso`. */
module Api {
  import opened Wrappers
  import opened Text
  import opened Types
  import opened ApiClient

  // ---------------------------------------------------------------------------
  // Appointments
  // ---------------------------------------------------------------------------

  /** An appointment as the backend sends it. A missing or empty status is None. */
  datatype RawAppointment = RawAppointment(
    id: nat,
    user_id: nat,
    doctor_id: nat,
    date: string,
    time: string,
    reason: Option<string>,
    status: Option<Status>,
    notes: Option<string>,
    paid: bool,
    payment_status: Option<PaymentStatus>,
    created_at: Option<string>,
    updated_at: Option<string>)

  /** The per-record mapping of the appointment lists. */
  function MapAppointment(r: RawAppointment, nowIso: string): (a: Appointment)
    ensures r.paid ==> a.status == Confirmed && a.paymentStatus == Paid
    ensures !r.paid ==> a.status == r.status.GetOr(Scheduled) && a.paymentStatus == Pending
  {
    Appointment(
      NatToString(r.id), NatToString(r.user_id), NatToString(r.doctor_id),
      r.date, r.time, OrElse(r.reason, ""),
      if r.paid then Confirmed else r.status.GetOr(Scheduled),
      OrElse(r.notes, ""),
      if r.paid then Paid else Pending,
      OrElse(r.created_at, nowIso), OrElse(r.updated_at, nowIso))
  }

  /** The identifiers are the decimal text of the backend's numbers (so they read
      back as those numbers), the date and time are copied verbatim, a present
      reason or note is copied and a missing one becomes the empty string, and a
      missing creation or update time becomes the current time. */
  lemma MapAppointmentFields(r: RawAppointment, nowIso: string)
    ensures var a := MapAppointment(r, nowIso);
      Number(a.id) == Num(r.id) && Number(a.userId) == Num(r.user_id) && Number(a.doctorId) == Num(r.doctor_id) &&
      a.appointmentDate == r.date && a.appointmentTime == r.time &&
      (r.reason.None? ==> a.reason == "") && (r.notes.None? ==> a.notes == "") &&
      a.reason == OrElse(r.reason, "") && a.notes == OrElse(r.notes, "") &&
      a.createdAt == OrElse(r.created_at, nowIso) && a.updatedAt == OrElse(r.updated_at, nowIso)
  {
    NumberOfNatToString(r.id);
    NumberOfNatToString(r.user_id);
    NumberOfNatToString(r.doctor_id);
  }

  /** A paid record shows as confirmed whatever the backend status says, even a
      cancelled one. */
  lemma PaidCancelledShowsConfirmed(r: RawAppointment, nowIso: string)
    requires r.paid && r.status == Some(Cancelled)
    ensures MapAppointment(r, nowIso).status == Confirmed
  {
  }

  function MapAppointments(raws: seq<RawAppointment>, nowIso: string): (r: seq<Appointment>)
    ensures |r| == |raws|
    ensures forall i :: 0 <= i < |raws| ==> r[i] == MapAppointment(raws[i], nowIso)
  {
    seq(|raws|, i requires 0 <= i < |raws| => MapAppointment(raws[i], nowIso))
  }

  /** The mapping keeps the order: the record at each position of the result comes
      from the record at the same position of the reply, and concatenated replies
      map to concatenated lists. */
  lemma MapAppointmentsAppend(xs: seq<RawAppointment>, ys: seq<RawAppointment>, nowIso: string)
    ensures MapAppointments(xs + ys, nowIso) == MapAppointments(xs, nowIso) + MapAppointments(ys, nowIso)
  {
  }

  /** `getUserAppointments` (GET /appointments). */
  function GetUserAppointments(out: Outcome<seq<RawAppointment>>, nowIso: string): (r: ApiResponse<seq<Appointment>>)
    ensures out.Resolved? ==> r.success && r.data == Some(MapAppointments(out.result.data, nowIso))
    ensures out.Threw? ==> r == HandleApiError(out.error)
  {
    match out
    case Resolved(res) => Succeed(MapAppointments(res.data, nowIso))
    case Threw(e) => HandleApiError(e)
  }

  /** `getAllAppointments` (GET /appointments/all), with the same record mapping
      and error handling as the user's list. */
  function GetAllAppointments(out: Outcome<seq<RawAppointment>>, nowIso: string): (r: ApiResponse<seq<Appointment>>)
    ensures out.Resolved? ==> r.success && r.data == Some(MapAppointments(out.result.data, nowIso))
    ensures out.Threw? ==> r == HandleApiError(out.error)
  {
    GetUserAppointments(out, nowIso)
  }

  /** The mapping of `cancelAppointment`: no paid coercion; the status defaults to
      cancelled and the payment status is the backend's, or pending. */
  function MapCancelled(r: RawAppointment, nowIso: string): (a: Appointment)
    ensures a.status == r.status.GetOr(Cancelled)
    ensures a.paymentStatus == r.payment_status.GetOr(Pending)
  {
    Appointment(
      NatToString(r.id), NatToString(r.user_id), NatToString(r.doctor_id),
      r.date, r.time, OrElse(r.reason, ""),
      r.status.GetOr(Cancelled),
      OrElse(r.notes, ""),
      r.payment_status.GetOr(Pending),
      OrElse(r.created_at, nowIso), OrElse(r.updated_at, nowIso))
  }

  /** The two mappings agree except on status and payment status: a paid record
      the backend reports as scheduled is confirmed in a list but scheduled in the
      cancel reply. */
  lemma CancelMappingDiffers(r: RawAppointment, nowIso: string)
    ensures MapCancelled(r, nowIso).(status := Scheduled, paymentStatus := Pending) ==
            MapAppointment(r, nowIso).(status := Scheduled, paymentStatus := Pending)
    ensures r.paid && r.status == Some(Scheduled) ==>
      MapAppointment(r, nowIso).status == Confirmed && MapCancelled(r, nowIso).status == Scheduled
  {
  }

  /** `cancelAppointment` (POST /appointments/{id}/cancel). */
  function CancelAppointment(out: Outcome<RawAppointment>, nowIso: string): (r: ApiResponse<Appointment>)
    ensures out.Resolved? ==> r.success && r.data == Some(MapCancelled(out.result.data, nowIso))
    ensures out.Threw? ==> r == HandleApiError(out.error)
  {
    match out
    case Resolved(res) => Succeed(MapCancelled(res.data, nowIso))
    case Threw(e) => HandleApiError(e)
  }

  // ---------------------------------------------------------------------------
  // Booking payload
  // ---------------------------------------------------------------------------

  /** The JSON body of POST /appointments. */
  datatype BookingPayload = BookingPayload(doctor_id: JsNumber, date: string, time: string, reason: string)

  function BookingPayloadOf(req: BookAppointmentRequest): BookingPayload
  {
    BookingPayload(Number(req.doctorId), req.appointmentDate, req.appointmentTime, req.reason)
  }

  /** A doctor id that is the decimal text of n is sent as the number n; the date,
      time and reason are sent unchanged. */
  lemma BookingPayloadSendsRequest(req: BookAppointmentRequest, n: nat)
    requires req.doctorId == NatToString(n)
    ensures BookingPayloadOf(req) == BookingPayload(Num(n), req.appointmentDate, req.appointmentTime, req.reason)
  {
    NumberOfNatToString(n);
  }

  /** `bookAppointment`: the checkout session the backend returns, or the error. */
  function BookAppointment<T>(out: Outcome<T>): (r: ApiResponse<T>)
    ensures out.Resolved? ==> r == Succeed(out.result.data)
    ensures out.Threw? ==> r == HandleApiError(out.error)
  {
    match out
    case Resolved(res) => Succeed(res.data)
    case Threw(e) => HandleApiError(e)
  }

  // ---------------------------------------------------------------------------
  // Users
  // ---------------------------------------------------------------------------

  /** A user as the backend sends it. */
  datatype RawUser = RawUser(
    id: nat,
    email: string,
    name: Option<string>,
    phone_number: Option<string>,
    DOB: Option<string>,
    image_url: Option<string>,
    is_adman: Option<string>,
    created_at: Option<string>,
    updated_at: Option<string>)

  /** The user normalisation shared by login, register, profile update and the
      admin user list: missing text fields become "", a missing role "user". */
  function NormaliseUser(r: RawUser, nowIso: string): (u: User)
    ensures Number(u.id) == Num(r.id) && u.email == r.email
    ensures r.name.Some? ==> u.name == r.name.value
    ensures r.name.None? ==> u.name == ""
    ensures r.phone_number.Some? ==> u.phone_number == r.phone_number.value
    ensures r.phone_number.None? ==> u.phone_number == ""
    ensures r.DOB.Some? ==> u.DOB == r.DOB.value
    ensures r.DOB.None? ==> u.DOB == ""
    ensures r.image_url.Some? ==> u.image_url == r.image_url.value
    ensures r.image_url.None? ==> u.image_url == ""
    ensures r.is_adman.None? ==> u.is_adman == "user"
    ensures r.is_adman.Some? ==> u.is_adman == r.is_adman.value
    ensures r.created_at.Some? ==> u.createdAt == r.created_at.value
    ensures r.created_at.None? ==> u.createdAt == nowIso
    ensures r.updated_at.Some? ==> u.updatedAt == r.updated_at.value
    ensures r.updated_at.None? ==> u.updatedAt == nowIso
  {
    NumberOfNatToString(r.id);
    User(NatToString(r.id), r.email, r.name.GetOr(""), r.phone_number.GetOr(""), r.DOB.GetOr(""),
         r.image_url.GetOr(""), r.is_adman.GetOr("user"), r.created_at.GetOr(nowIso), r.updated_at.GetOr(nowIso))
  }

  /** `getAllUsers`: every backend user normalised, in order. */
  function GetAllUsers(out: Outcome<seq<RawUser>>, nowIso: string): (r: ApiResponse<seq<User>>)
    ensures out.Resolved? ==> r.success && r.data.Some? && |r.data.value| == |out.result.data|
    ensures out.Resolved? ==> forall i :: 0 <= i < |out.result.data| ==> r.data.value[i] == NormaliseUser(out.result.data[i], nowIso)
    ensures out.Threw? ==> r == HandleApiError(out.error)
  {
    match out
    case Resolved(res) => Succeed(seq(|res.data|, i requires 0 <= i < |res.data| => NormaliseUser(res.data[i], nowIso)))
    case Threw(e) => HandleApiError(e)
  }

  datatype RegisterRequest = RegisterRequest(
    email: string,
    password: string,
    firstName: Option<string>,
    lastName: Option<string>,
    phone: Option<string>,
    dateOfBirth: Option<string>)

  /** The JSON body of POST /auth/register; None is `null`. */
  datatype RegisterPayload = RegisterPayload(name: string, email: string, password: string, phone_number: Option<string>, DOB: Option<string>)

  /** `${first} ${last}`, trimmed. */
  function FullName(first: string, last: string): string
  {
    Trim(first + " " + last)
  }

  /** The registration body: the name is the trimmed "first last" with a missing
      part read as ""; phone and date of birth are sent when non-empty and are
      `null` otherwise. */
  function RegisterPayloadOf(req: RegisterRequest): (p: RegisterPayload)
    ensures p.name == Trim(req.firstName.GetOr("") + " " + req.lastName.GetOr(""))
    ensures p.phone_number.Some? <==> Truthy(req.phone)
    ensures Truthy(req.phone) ==> p.phone_number == req.phone
    ensures p.DOB.Some? <==> Truthy(req.dateOfBirth)
    ensures Truthy(req.dateOfBirth) ==> p.DOB == req.dateOfBirth
    ensures p.email == req.email && p.password == req.password
  {
    RegisterPayload(
      FullName(req.firstName.GetOr(""), req.lastName.GetOr("")),
      req.email, req.password,
      if Truthy(req.phone) then req.phone else None,
      if Truthy(req.dateOfBirth) then req.dateOfBirth else None)
  }

  /** Without either name part the name is empty. With two non-empty parts free
      of white space, the name is "first last", and splitting it at the space gives
      the two parts back (which is how the admin edit form reads it). */
  lemma FullNameSplits(first: string, last: string)
    ensures FullName("", "") == ""
    ensures first != "" && last != "" && NoSpace(first) && NoSpace(last) ==>
      FullName(first, last) == first + " " + last && Split(first + " " + last, ' ') == [first, last]
  {
    assert "" + " " + "" == " ";
    BlankIff(" ");
    if first != "" && last != "" && NoSpace(first) && NoSpace(last) {
      TrimUnpadded(first + " " + last);
      SplitTwo(first, last);
    }
  }

  /** Builds the PUT /users/me body field by field: a field is sent exactly when it
      was supplied, with the supplied value. */
  method ProfilePayload(name: Option<string>, email: Option<string>, phone_number: Option<string>, DOB: Option<string>)
    returns (payload: map<string, string>)
    ensures "name" in payload <==> name.Some?
    ensures "email" in payload <==> email.Some?
    ensures "phone_number" in payload <==> phone_number.Some?
    ensures "DOB" in payload <==> DOB.Some?
    ensures payload.Keys <= {"name", "email", "phone_number", "DOB"}
    ensures name.Some? ==> payload["name"] == name.value
    ensures email.Some? ==> payload["email"] == email.value
    ensures phone_number.Some? ==> payload["phone_number"] == phone_number.value
    ensures DOB.Some? ==> payload["DOB"] == DOB.value
  {
    payload := map[];
    if name.Some? {
      payload := payload["name" := name.value];
    }
    if email.Some? {
      payload := payload["email" := email.value];
    }
    if phone_number.Some? {
      payload := payload["phone_number" := phone_number.value];
    }
    if DOB.Some? {
      payload := payload["DOB" := DOB.value];
    }
  }

  /** Builds the PUT /users/{id} body: the name is sent when either name part was
      supplied, as the trimmed "first last" with a missing or empty part read as
      ""; phone and date of birth are renamed to the backend's field names. */
  method UpdateUserPayload(firstName: Option<string>, lastName: Option<string>, email: Option<string>, phone: Option<string>, dateOfBirth: Option<string>)
    returns (payload: map<string, string>)
    ensures "name" in payload <==> firstName.Some? || lastName.Some?
    ensures "email" in payload <==> email.Some?
    ensures "phone_number" in payload <==> phone.Some?
    ensures "DOB" in payload <==> dateOfBirth.Some?
    ensures payload.Keys <= {"name", "email", "phone_number", "DOB"}
    ensures "name" in payload ==> payload["name"] == FullName(OrElse(firstName, ""), OrElse(lastName, ""))
    ensures email.Some? ==> payload["email"] == email.value
    ensures phone.Some? ==> payload["phone_number"] == phone.value
    ensures dateOfBirth.Some? ==> payload["DOB"] == dateOfBirth.value
  {
    payload := map[];
    if firstName.Some? || lastName.Some? {
      payload := payload["name" := FullName(OrElse(firstName, ""), OrElse(lastName, ""))];
    }
    if email.Some? {
      payload := payload["email" := email.value];
    }
    if phone.Some? {
      payload := payload["phone_number" := phone.value];
    }
    if dateOfBirth.Some? {
      payload := payload["DOB" := dateOfBirth.value];
    }
  }

  /** `updateProfile` and `updateUser` after the PUT: the normalised user or the
      error. */
  function UpdatedUser(out: Outcome<RawUser>, nowIso: string): (r: ApiResponse<User>)
    ensures out.Resolved? ==> r == Succeed(NormaliseUser(out.result.data, nowIso))
    ensures out.Threw? ==> r == HandleApiError(out.error)
  {
    match out
    case Resolved(res) => Succeed(NormaliseUser(res.data, nowIso))
    case Threw(e) => HandleApiError(e)
  }

  // ---------------------------------------------------------------------------
  // Login and registration
  // ---------------------------------------------------------------------------

  datatype AuthResponse = AuthResponse(user: User, token: string)

  /** The body of a login reply. */
  datatype LoginData = LoginData(access_token: Option<string>)

  /** The body of a registration reply; `asUser` is the same body read as a user
      record, for replies in the older format. */
  datatype RegisterData = RegisterData(access_token: Option<string>, user: Option<RawUser>, asUser: RawUser)

  /** The two local-storage entries the API layer writes, "auth_token" and
      "auth_user" (None when the key is absent), and the page location the
      wrapped client sets when it ends the session. */
  class Session {
    var authToken: Option<string>
    var authUser: Option<User>
    var location: Option<string>

    constructor (token: Option<string>, user: Option<User>)
      ensures authToken == token && authUser == user && location.None?
    {
      authToken := token;
      authUser := user;
      location := None;
    }

    /** The wrapped client's `handle401Error`, which has already run when a POST
        rethrows: on a 401 both entries are removed and the page goes to /login. */
    method EndSessionIfUnauthorized(e: HttpError)
      modifies this
      ensures IsUnauthorized(e) ==> authToken.None? && authUser.None? && location == Some("/login")
      ensures !IsUnauthorized(e) ==> authToken == old(authToken) && authUser == old(authUser) && location == old(location)
    {
      if IsUnauthorized(e) {
        authToken := None;
        authUser := None;
        location := Some("/login");
      }
    }

    /** `login`. A token in the reply is stored, then the profile is fetched with
        it: on success the normalised user is stored too; if the fetch fails the
        token is removed again, so no token is left even if one was stored before. */
    method Login(loginOut: Outcome<LoginData>, userOut: Outcome<RawUser>, nowIso: string) returns (r: ApiResponse<AuthResponse>)
      modifies this
      ensures loginOut.Threw? ==> r == HandleApiError(loginOut.error)
      ensures loginOut.Threw? && IsUnauthorized(loginOut.error) ==>
        authToken.None? && authUser.None? && location == Some("/login")
      ensures loginOut.Threw? && !IsUnauthorized(loginOut.error) ==>
        authToken == old(authToken) && authUser == old(authUser) && location == old(location)
      ensures loginOut.Resolved? && !Truthy(loginOut.result.data.access_token) ==>
        r == Fail("Invalid credentials") && authToken == old(authToken) && authUser == old(authUser)
      ensures loginOut.Resolved? && Truthy(loginOut.result.data.access_token) && userOut.Resolved? ==>
        var u := NormaliseUser(userOut.result.data, nowIso);
        var t := loginOut.result.data.access_token.value;
        r == Succeed(AuthResponse(u, t)) && authToken == Some(t) && authUser == Some(u)
      ensures loginOut.Resolved? && Truthy(loginOut.result.data.access_token) && userOut.Threw? ==>
        r == Fail("Failed to fetch user profile") && authToken.None? && authUser == old(authUser)
      ensures loginOut.Resolved? ==> location == old(location)
      ensures r.success <==> loginOut.Resolved? && Truthy(loginOut.result.data.access_token) && userOut.Resolved?
    {
      match loginOut {
        case Threw(e) =>
          EndSessionIfUnauthorized(e);
          return HandleApiError(e);
        case Resolved(res) =>
          if !Truthy(res.data.access_token) {
            return Fail("Invalid credentials");
          }
          var token := res.data.access_token.value;
          authToken := Some(token);
          match userOut {
            case Resolved(ures) =>
              var user := NormaliseUser(ures.data, nowIso);
              authUser := Some(user);
              return Succeed(AuthResponse(user, token));
            case Threw(_) =>
              authToken := None;
              return Fail("Failed to fetch user profile");
          }
      }
    }

    /** `register`. A reply with a token and a user stores both; a reply in the
        older format is read as the user itself, with an empty token, and stores
        nothing. */
    method Register(out: Outcome<RegisterData>, nowIso: string) returns (r: ApiResponse<AuthResponse>)
      modifies this
      ensures out.Threw? ==> r == HandleApiError(out.error)
      ensures out.Threw? && IsUnauthorized(out.error) ==>
        authToken.None? && authUser.None? && location == Some("/login")
      ensures out.Threw? && !IsUnauthorized(out.error) ==>
        authToken == old(authToken) && authUser == old(authUser) && location == old(location)
      ensures out.Resolved? ==> location == old(location)
      ensures out.Resolved? && Truthy(out.result.data.access_token) && out.result.data.user.Some? ==>
        var u := NormaliseUser(out.result.data.user.value, nowIso);
        var t := out.result.data.access_token.value;
        r == Succeed(AuthResponse(u, t)) && authToken == Some(t) && authUser == Some(u)
      ensures out.Resolved? && !(Truthy(out.result.data.access_token) && out.result.data.user.Some?) ==>
        r == Succeed(AuthResponse(NormaliseUser(out.result.data.asUser, nowIso), "")) &&
        authToken == old(authToken) && authUser == old(authUser)
    {
      match out {
        case Threw(e) =>
          EndSessionIfUnauthorized(e);
          return HandleApiError(e);
        case Resolved(res) =>
          var data := res.data;
          if Truthy(data.access_token) && data.user.Some? {
            var token := data.access_token.value;
            authToken := Some(token);
            var user := NormaliseUser(data.user.value, nowIso);
            authUser := Some(user);
            return Succeed(AuthResponse(user, token));
          }
          return Succeed(AuthResponse(NormaliseUser(data.asUser, nowIso), ""));
      }
    }
  }
}
