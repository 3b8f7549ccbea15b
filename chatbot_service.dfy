/** The rule-based chatbot: it lowercases the message, picks a category by
    keyword in a fixed priority, and answers from that category's handler. The
    replies are modelled by which answer is given and the data it lists, not by
    their wording. */
module ChatbotService {
  import opened Wrappers
  import opened Text
  import opened Types
  import opened Lists

  const Greetings: seq<string> := ["hello", "hi", "hey", "good morning", "good afternoon", "good evening"]
  const DoctorKeywords: seq<string> := ["doctor", "physician", "specialist", "find doctor", "available doctors", "show doctors"]
  const AppointmentKeywords: seq<string> := ["appointment", "book", "schedule", "my appointments", "cancel appointment"]
  const FaqKeywords: seq<string> := ["how", "what", "when", "where", "why", "faq", "help", "hours", "cost", "insurance"]
  const SpecialtyKeywords: seq<string> := ["cardiology", "dermatology", "pediatrics", "orthopedics", "neurology", "psychiatry"]
  const EmergencyKeywords: seq<string> := ["emergency", "urgent", "pain", "chest pain", "difficulty breathing", "911"]

  /** The specialty table of the specialty handler, in insertion order. */
  const SpecialtyDescriptions: seq<(string, string)> := [
    ("cardiology", "heart and cardiovascular conditions"),
    ("dermatology", "skin, hair, and nail conditions"),
    ("pediatrics", "children's health and development"),
    ("orthopedics", "bones, joints, and musculoskeletal system"),
    ("neurology", "brain and nervous system disorders"),
    ("psychiatry", "mental health and behavioral disorders")]

  datatype Category = GreetingQuery | DoctorQuery | AppointmentQuery | FaqQuery | SpecialtyQuery | EmergencyQuery | OtherQuery

  /** The categories in the order `processMessage` tries them. */
  const Priority: seq<Category> := [GreetingQuery, DoctorQuery, AppointmentQuery, FaqQuery, SpecialtyQuery, EmergencyQuery]

  function Keywords(c: Category): seq<string>
  {
    match c
    case GreetingQuery => Greetings
    case DoctorQuery => DoctorKeywords
    case AppointmentQuery => AppointmentKeywords
    case FaqQuery => FaqKeywords
    case SpecialtyQuery => SpecialtyKeywords
    case EmergencyQuery => EmergencyKeywords
    case OtherQuery => []
  }

  /** The `is*` tests of `processMessage`, tried in order on the lowercased
      message: the category chosen is the first whose keywords the message
      contains, and the default only when none does. */
  function Categorise(lower: string): (c: Category)
    ensures c == OtherQuery <==> forall k :: 0 <= k < |Priority| ==> !ContainsAny(lower, Keywords(Priority[k]))
    ensures c != OtherQuery ==>
      exists k :: (0 <= k < |Priority| && Priority[k] == c && ContainsAny(lower, Keywords(c)) &&
        forall j :: 0 <= j < k ==> !ContainsAny(lower, Keywords(Priority[j])))
  {
    if ContainsAny(lower, Greetings) then
      assert Priority[0] == GreetingQuery;
      GreetingQuery
    else if ContainsAny(lower, DoctorKeywords) then
      assert Priority[1] == DoctorQuery;
      DoctorQuery
    else if ContainsAny(lower, AppointmentKeywords) then
      assert Priority[2] == AppointmentQuery;
      AppointmentQuery
    else if ContainsAny(lower, FaqKeywords) then
      assert Priority[3] == FaqQuery;
      FaqQuery
    else if ContainsAny(lower, SpecialtyKeywords) then
      assert Priority[4] == SpecialtyQuery;
      SpecialtyQuery
    else if ContainsAny(lower, EmergencyKeywords) then
      assert Priority[5] == EmergencyQuery;
      EmergencyQuery
    else OtherQuery
  }

  /** Which answer the chatbot gives, with the data it lists. */
  datatype Reply =
    | Greeting(salutation: string)
    | DoctorList(shown: seq<Doctor>, more: nat)
    | DoctorHelp
    | LoginPrompt
    | BookingGuidance(salutation: string)
    | UpcomingList(count: nat, listed: seq<Appointment>, andMore: bool)
    | NoUpcoming
    | AppointmentHelp
    | ClinicHours
    | Fees
    | InsuranceInfo
    | CancelInfo
    | FaqList
    | SpecialistList(specialty: string, description: string, doctors: seq<Doctor>)
    | SpecialtyNote(specialty: string, description: string)
    | SpecialtyList
    | EmergencyInfo
    | Fallback(echo: string)

  /** The greeting's first words. The session's user has no `firstName` field,
      so a signed-in user is greeted with the text "undefined". */
  function GreetingLine(user: Option<User>): (r: string)
    ensures user.None? ==> r == "Hello!"
    ensures user.Some? ==> r == "Hello undefined!"
  {
    "Hello" + (if user.Some? then " " + "undefined" else "") + "!"
  }

  /** `handleDoctorQuery`: on a successful reply, the first three doctors and the
      number left out; otherwise the generic help. */
  function DoctorQueryReply(doctors: ApiResponse<seq<Doctor>>): (r: Reply)
    ensures r.DoctorList? <==> doctors.success && doctors.data.Some?
    ensures r.DoctorList? ==>
      (doctors.data.Some? && |r.shown| == (if |doctors.data.value| > 3 then 3 else |doctors.data.value|) &&
       r.shown == doctors.data.value[..|r.shown|] && |r.shown| + r.more == |doctors.data.value|)
  {
    if doctors.success && doctors.data.Some? then
      var all := doctors.data.value;
      if |all| > 3 then DoctorList(all[..3], |all| - 3) else DoctorList(all, 0)
    else DoctorHelp
  }

  function IsScheduled(a: Appointment): bool
  {
    a.status == Scheduled
  }

  /** `handleAppointmentQuery`: without a user, always the login prompt; then
      booking words before listing words; a listing shows the count and the
      first two scheduled appointments. */
  function AppointmentQueryReply(lower: string, user: Option<User>, appointments: ApiResponse<seq<Appointment>>): (r: Reply)
    ensures user.None? ==> r == LoginPrompt
    ensures user.Some? && (Contains(lower, "book") || Contains(lower, "schedule")) ==> r.BookingGuidance?
    ensures r.UpcomingList? ==>
      appointments.data.Some? &&
      var upcoming := Filter(appointments.data.value, IsScheduled);
      r.count == |upcoming| > 0 && r.listed == (if |upcoming| > 2 then upcoming[..2] else upcoming) &&
      (r.andMore <==> |upcoming| > 2)
    ensures r.UpcomingList? || r.NoUpcoming? ==>
      user.Some? && !Contains(lower, "book") && !Contains(lower, "schedule") &&
      (Contains(lower, "my appointments") || Contains(lower, "view appointments")) &&
      appointments.success && appointments.data.Some?
    ensures r.BookingGuidance? <==> user.Some? && (Contains(lower, "book") || Contains(lower, "schedule"))
    ensures (user.Some? && !Contains(lower, "book") && !Contains(lower, "schedule") &&
             (Contains(lower, "my appointments") || Contains(lower, "view appointments")) &&
             appointments.success && appointments.data.Some?) ==>
      if |Filter(appointments.data.value, IsScheduled)| > 0 then r.UpcomingList? else r == NoUpcoming
    ensures r == AppointmentHelp <==>
      user.Some? && !Contains(lower, "book") && !Contains(lower, "schedule") &&
      !((Contains(lower, "my appointments") || Contains(lower, "view appointments")) &&
        appointments.success && appointments.data.Some?)
  {
    if user.None? then LoginPrompt
    else if Contains(lower, "book") || Contains(lower, "schedule") then BookingGuidance("I can help you book an appointment, undefined!")
    else if (Contains(lower, "my appointments") || Contains(lower, "view appointments")) && appointments.success && appointments.data.Some? then
      var upcoming := Filter(appointments.data.value, IsScheduled);
      if |upcoming| > 0 then UpcomingList(|upcoming|, if |upcoming| > 2 then upcoming[..2] else upcoming, |upcoming| > 2)
      else NoUpcoming
    else AppointmentHelp
  }

  predicate AsksHours(lower: string)
  {
    Contains(lower, "hours") || Contains(lower, "open")
  }

  predicate AsksCost(lower: string)
  {
    Contains(lower, "cost") || Contains(lower, "price") || Contains(lower, "fee")
  }

  predicate AsksCancel(lower: string)
  {
    Contains(lower, "cancel") || Contains(lower, "reschedule")
  }

  /** `handleFAQQuery`: hours or "open", then cost words, then insurance, then
      cancel or reschedule, then the generic list. Each answer is given exactly
      when its words occur and no earlier answer's words do. */
  function FaqReply(lower: string): (r: Reply)
    ensures r == ClinicHours <==> AsksHours(lower)
    ensures r == Fees <==> !AsksHours(lower) && AsksCost(lower)
    ensures r == InsuranceInfo <==> !AsksHours(lower) && !AsksCost(lower) && Contains(lower, "insurance")
    ensures r == CancelInfo <==>
      !AsksHours(lower) && !AsksCost(lower) && !Contains(lower, "insurance") && AsksCancel(lower)
    ensures r == FaqList <==>
      !AsksHours(lower) && !AsksCost(lower) && !Contains(lower, "insurance") && !AsksCancel(lower)
  {
    if AsksHours(lower) then ClinicHours
    else if AsksCost(lower) then Fees
    else if Contains(lower, "insurance") then InsuranceInfo
    else if AsksCancel(lower) then CancelInfo
    else FaqList
  }

  function SpecialtyNames(): (r: seq<string>)
    ensures |r| == |SpecialtyDescriptions| && forall i :: 0 <= i < |r| ==> r[i] == SpecialtyDescriptions[i].0
  {
    seq(|SpecialtyDescriptions|, i requires 0 <= i < |SpecialtyDescriptions| => SpecialtyDescriptions[i].0)
  }

  /** `handleSpecialtyQuery`: the first table entry the message names decides the
      answer; the doctors listed are those whose lowercased specialty contains
      it, and with none listed the answer only describes the specialty. */
  function SpecialtyQueryReply(lower: string, doctors: ApiResponse<seq<Doctor>>): (r: Reply)
    ensures r == SpecialtyList <==> !ContainsAny(lower, SpecialtyNames())
    ensures r.SpecialistList? || r.SpecialtyNote? ==>
      exists k :: 0 <= k < |SpecialtyDescriptions| && SpecialtyDescriptions[k] == (r.specialty, r.description) &&
        Contains(lower, r.specialty) && forall j :: 0 <= j < k ==> !Contains(lower, SpecialtyDescriptions[j].0)
    ensures r.SpecialistList? ==>
      (doctors.success && doctors.data.Some? && r.doctors != [] &&
       forall d :: d in r.doctors <==> d in doctors.data.value && Contains(Lower(d.specialty), r.specialty))
    ensures r.SpecialtyNote? ==>
      !(doctors.success && doctors.data.Some?) ||
      forall d :: d in doctors.data.value ==> !Contains(Lower(d.specialty), r.specialty)
  {
    var names := SpecialtyNames();
    var k := FirstContained(lower, names);
    if k == -1 then SpecialtyList
    else
      var (specialty, description) := SpecialtyDescriptions[k];
      if doctors.success && doctors.data.Some? then
        var matched := Filter(doctors.data.value, (d: Doctor) => Contains(Lower(d.specialty), specialty));
        if |matched| > 0 then SpecialistList(specialty, description, matched)
        else SpecialtyNote(specialty, description)
      else SpecialtyNote(specialty, description)
  }

  /** `processMessage`. The fetched doctors and appointments are inputs; they are
      used only by the handlers that fetch them. */
  function ProcessMessage(message: string, user: Option<User>, doctors: ApiResponse<seq<Doctor>>,
                          appointments: ApiResponse<seq<Appointment>>): (r: Reply)
    ensures Categorise(Lower(message)) == OtherQuery <==> r == Fallback(message)
  {
    var lower := Lower(message);
    match Categorise(lower)
    case GreetingQuery => Greeting(GreetingLine(user))
    case DoctorQuery => DoctorQueryReply(doctors)
    case AppointmentQuery => AppointmentQueryReply(lower, user, appointments)
    case FaqQuery => FaqReply(lower)
    case SpecialtyQuery => SpecialtyQueryReply(lower, doctors)
    case EmergencyQuery => EmergencyInfo
    case OtherQuery => Fallback(message)
  }

  /** Each category answers only from its own handler, and the specialty handler
      reached from `processMessage` always names a specialty. */
  lemma Dispatch(message: string, user: Option<User>, doctors: ApiResponse<seq<Doctor>>, appointments: ApiResponse<seq<Appointment>>)
    ensures var r := ProcessMessage(message, user, doctors, appointments);
      var c := Categorise(Lower(message));
      (c == GreetingQuery <==> r.Greeting?) &&
      (c == EmergencyQuery <==> r == EmergencyInfo) &&
      (c == SpecialtyQuery ==> r.SpecialistList? || r.SpecialtyNote?) &&
      (c == AppointmentQuery && user.None? ==> r == LoginPrompt)
  {
    var c := Categorise(Lower(message));
    if c == SpecialtyQuery {
      assert SpecialtyNames() == SpecialtyKeywords;
    }
  }

  /** Priority shadows later categories through short keywords: "hi" occurs in
      "psychiatry" and in "difficulty breathing", so both are greetings. */
  lemma GreetingShadows()
    ensures Categorise("psychiatry") == GreetingQuery
    ensures Categorise("difficulty breathing") == GreetingQuery
  {
    assert Greetings[1] == "hi";
    ContainsAt("psychiatry", "hi", 4);
    ContainsAt("difficulty breathing", "hi", 16);
  }
}
