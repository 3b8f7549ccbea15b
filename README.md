# HealthCare+ front end, modelled in Dafny

This project models the decision logic of HealthCare+, a Next.js front end for
booking doctor appointments. Patients use it to find doctors, book and pay for
appointments, follow their upcoming and past visits, reset a password, edit their
profile and talk to a chatbot. Administrators use it to manage users, doctors and
appointments and to read analytics. The model leaves the JSX out. What remains is
the logic the pages and the API layer run:

- The record mappings and request payloads of the API layer (`api.dfy`).
- The HTTP client's error extraction, response check, GET cache and 401 handling (`api_client.dfy`).
- Booking validation, the weekday availability rule and the payment hand-off (`booking.dfy`, `payment_button.dfy`).
- The two payment-return pages as small state machines (`payment_success.dfy`, `appointment_success.dfy`).
- The appointment lists:
  - the upcoming/past partition and the cancel (`appointments.dfy`);
  - the dashboard's three earliest (`dashboard.dfy`);
  - the admin status edits, filters and counts (`appointment_management.dfy`).
- The analytics and admin summary figures (`admin_analytics.dfy`, `admin_page.dfy`).
- The password rules (`reset_password.dfy`).
- The chatbot's intent router (`chatbot_service.dfy`), and the widget's reply dispatcher and message list (`chatbot_widget.dfy`).
- The doctor list search, and the admin user and doctor tables (`doctors_page.dfy`, `user_management.dfy`, `doctor_management.dfy`).
- The profile page (`profile.dfy`).

Shared pieces:

- `types.dfy`: the records of `lib/types.ts`.
- `text.dfy`: JavaScript string behaviour (`trim`, `toLowerCase`, `includes`, `split`, `join`, `||` on strings, `Number`, `toString`).
- `dates.dfy`: calendar dates as day numbers with a weekday, and date+time as a millisecond instant.
- `lists.dfy`: `filter` and selective `map`.
- `initials.dfy`: the avatar initials.
- `wrappers.dfy`: `Option`.

Mapping conventions:

- Network replies, the clock (`now`, `today`, timestamps), `confirm` answers, and `localStorage` contents are parameters.
- Navigation, redirects and timer-delayed actions are returned as values.
- State a page keeps with `useState` is a class field.
- Each handler is a method whose `ensures` gives the whole new state.

Where the code as written behaves in a way its surroundings do not suggest, the
model follows the code and proves the behaviour as a property:

- `ApiClient.GetErrorNeverUnauthorized`: a failed GET carries no response, so a 401 on a GET never ends the session.
- `ChatbotService.GreetingShadows`: the greeting keyword "hi" occurs inside "psychiatry" and "difficulty breathing", so both are answered as greetings.
- `ChatbotService.GreetingLine`: the greeting says "Hello undefined!", because it reads a `firstName` that `User` does not have.
- `Appointments.UnparseableIsUpcoming` and `Dashboard.SameSetAsAppointmentsPage`: an appointment whose date or time does not parse is upcoming on the appointments page but dropped from the dashboard.
- `AppointmentSuccess.Page.OnLoad` and `AppointmentSuccess.SignedInStorageHasNoToken`: the appointment success page reads the storage key 'token', while sign-in stores 'auth_token' and 'auth_user'. A storage holding only those two entries gives the page no token, so a signed-in user is sent to /login.
- `AppointmentSuccess.RedirectRendersSuccess`: after redirecting to /login, that page still renders its success header.
- `PaymentSuccess.Page.OnLoad`: the payment success page treats a missing session id as an error, not as a plain acknowledgement.
- `Appointments.Page.FetchData`: the appointments page stays loading when nobody is signed in.
- `ChatbotWidget.HeadForm`, `ChatbotWidget.TailForm` and `ChatbotWidget.SendDispatch`: the second `response` and `message_response` branches of the widget's dispatch chain are unreachable, and so is its legacy navigation block.
- `ChatbotWidget.Widget.HandleSuggestionClick`: a suggestion click sends without checking for a user.
- `AdminPage.SummaryOf`: the admin page's "Today's Appointments" card shows the scheduled count, with no date filter.
- `Profile.Page.HandleSave`: a profile save does not update the signed-in user.

## Model

| member | source | states |
|---|---|---|
| Text.TrimStart | components/chatbot/chatbot-widget.tsx:89 | leading white space is removed and nothing else |
| Text.TrimEnd | components/chatbot/chatbot-widget.tsx:89 | trailing white space is removed and nothing else |
| Text.BlankIff | components/chatbot/chatbot-widget.tsx:89 | a text trims to empty exactly when it is all white space |
| Text.TrimIdempotent | app/book-appointment/page.tsx:111 | trimming twice is trimming once |
| Text.Lower | components/admin/user-management.tsx:64 | lowercasing maps each character and keeps the length |
| Text.LowerIdempotent | components/admin/user-management.tsx:64 | lowercasing twice is lowercasing once |
| Text.ContainsIff | components/admin/user-management.tsx:64-66 | `includes` holds exactly when the needle occurs at some position |
| Text.ContainsEmpty | components/admin/user-management.tsx:64-66 | every text includes the empty text |
| Text.FirstContained | lib/chatbot-service.ts:56-84 | the index of the first key contained in the text, and -1 exactly when none is |
| Text.Split | components/admin/user-management.tsx:129 | splitting always gives at least one part |
| Text.SplitPartsFree | components/admin/user-management.tsx:129 | no part contains the separator |
| Text.JoinSplit | components/admin/user-management.tsx:129 | joining the parts with the separator gives back the text |
| Text.SplitCount | components/admin/user-management.tsx:129 | there is one part more than separators |
| Text.SplitJoin | components/admin/user-management.tsx:74-75 | splitting a join of separator-free parts gives back the parts |
| Text.NatToString | components/admin/doctor-management.tsx:90 | a decimal numeral of digits without a leading zero |
| Text.DigitsValueOfNatToString | components/admin/doctor-management.tsx:90 | the numeral reads back as the number |
| Text.Number | lib/api.ts:431 | a blank text converts to 0 |
| Text.NumberOfNatToString | lib/api.ts:431 | converting a numeral gives back its number |
| Text.OrElse | components/admin/doctor-management.tsx:67 | `x || d` on an optional text: x when it is a non-empty text, else d |
| ApiClient.ItemTexts | lib/api-client.ts:155 | one text per validation item, in order, each being the item's `msg` when truthy and otherwise its `message` |
| ApiClient.HandleApiError | lib/api-client.ts:151-170 | always a failure without data and with an error text; that text is empty only for a validation list |
| ApiClient.ErrorFromDetailList | lib/api-client.ts:152-157 | a list `detail` reports every item's message joined by ", ", an item with a `msg` contributing that `msg` |
| ApiClient.ErrorPrecedence | lib/api-client.ts:152-169 | the message comes from a non-empty text `detail`, else the body's `message`, else the error's own message, else "An unexpected error occurred" |
| ApiClient.ErrorWithoutResponse | lib/api-client.ts:165-167 | an error with no response and a non-empty message (every failed GET) reports exactly that message |
| ApiClient.HandleApiResponse | lib/api-client.ts:143-148 | success with the data exactly for a 2xx status, otherwise "Request failed" and no data |
| ApiClient.GetError | lib/api-client.ts:35-37 | a failed GET throws an error that carries no response |
| ApiClient.WriteError | lib/api-client.ts:67-72 | a failed POST/PUT/DELETE throws an error carrying the body and the status; a network failure carries neither |
| ApiClient.GetErrorNeverUnauthorized | lib/api-client.ts:183-192 | a failed GET never triggers the 401 handling, whatever the status |
| ApiClient.WriteErrorUnauthorized | lib/api-client.ts:194-225 | a failed write triggers the 401 handling exactly when the server answered 401 |
| ApiClient.Client.EndSessionIfUnauthorized | lib/api-client.ts:173-179 | on a 401 the token and the stored user are removed and the browser goes to /login; otherwise nothing changes; the cache is untouched |
| ApiClient.Client.Get | lib/api-client.ts:8-47 | a cached "GET:"+url entry is returned untouched when caching is on; otherwise an ok reply resolves and is cached only for status 200 with caching on; a failure throws without a response and leaves the session |
| ApiClient.Client.Post | lib/api-client.ts:49-85 | an ok reply resolves and, for 2xx, drops exactly the three invalidated GET entries; a failure throws with the response and ends the session exactly on 401 |
| ApiClient.Client.PutOrDelete | lib/api-client.ts:87-139 | an ok reply resolves with the cache untouched; a failure throws with the response and ends the session exactly on 401 |
| ApiClient.InvalidationFrame | lib/api-client.ts:79-81 | after a successful POST the three invalidated keys are gone and every other cached entry is unchanged |
| Api.MapAppointment | lib/api.ts:449-460 | a paid record is confirmed and paid; an unpaid one keeps the backend status, scheduled when missing, and is pending |
| Api.MapAppointmentFields | lib/api.ts:449-460 | the ids are the decimal text of the backend numbers, date and time are copied, reason and notes are copied when present and "" otherwise, and createdAt/updatedAt are the backend times when present and the current time otherwise |
| Api.PaidCancelledShowsConfirmed | lib/api.ts:456 | a paid record the backend reports as cancelled is shown as confirmed |
| Api.MapAppointments | lib/api.ts:449 | one appointment per backend record, each at the same position |
| Api.MapAppointmentsAppend | lib/api.ts:498 | the mapping preserves order: concatenated replies map to concatenated lists |
| Api.GetUserAppointments | lib/api.ts:446-466 | a reply gives success with the mapped list; an exception gives the `handleApiError` result |
| Api.GetAllAppointments | lib/api.ts:493-517 | as for the user's list, from GET /appointments/all |
| Api.MapCancelled | lib/api.ts:473-485 | the status is the backend's, cancelled when missing; the payment status is the backend's, pending when missing |
| Api.CancelMappingDiffers | lib/api.ts:456-482 | the cancel mapping agrees with the list mapping except on the two statuses; a paid scheduled record is confirmed in a list but scheduled in the cancel reply |
| Api.CancelAppointment | lib/api.ts:468-491 | a reply gives success with the cancel mapping; an exception gives the `handleApiError` result |
| Api.BookingPayloadSendsRequest | lib/api.ts:431-436 | the doctor id is sent as the number whose decimal text it is; date, time and reason are sent unchanged |
| Api.BookAppointment | lib/api.ts:428-444 | a reply gives success with the backend data (the checkout session); an exception gives the `handleApiError` result |
| Api.NormaliseUser | lib/api.ts:193-203 | the id is the decimal text of the backend id and the email is copied; name, phone_number, DOB and image_url are the backend value when present and "" otherwise; the role is the backend value or "user"; both timestamps are the backend value or the current time |
| Api.GetAllUsers | lib/api.ts:190-208 | one normalised user per backend record, in order; an exception gives the `handleApiError` result |
| Api.RegisterPayloadOf | lib/api.ts:80-86 | the name is the trimmed "first last" with a missing part read as ""; phone and date of birth are sent with their own values exactly when truthy, and `null` otherwise; email and password are copied |
| Api.FullNameSplits | lib/api.ts:81 | no name parts give the empty name; two space-free parts give "first last", which splits back into the two parts |
| Api.ProfilePayload | lib/api.ts:149-162 | a field is in the PUT /users/me body exactly when supplied, with the supplied value, and no other key is present |
| Api.UpdateUserPayload | lib/api.ts:219-232 | the name is sent exactly when either part is supplied, as the trimmed "first last"; phone and date of birth are renamed; nothing else is sent |
| Api.UpdatedUser | lib/api.ts:164-185 | after the PUT, a reply gives the normalised user; an exception gives the `handleApiError` result |
| Api.Session.Login | lib/api.ts:24-75 | a token with a fetched profile stores both and succeeds; a failed profile fetch removes the token again and fails; no token fails with "Invalid credentials"; success exactly in the first case; a thrown POST with status 401 has removed both entries and sent the page to /login, any other throw changes nothing |
| Api.Session.EndSessionIfUnauthorized | lib/api-client.ts:172-203 | on a 401 both stored entries are removed and the location becomes /login; otherwise nothing changes |
| Api.Session.Register | lib/api.ts:77-139 | a reply with token and user stores both; an older-format reply is read as the user with an empty token and stores nothing; a thrown POST with status 401 has removed both entries and sent the page to /login, any other throw changes nothing |
| Booking.TimeSlotsWellFormed | app/book-appointment/page.tsx:38-51 | twelve slots, all valid times, strictly increasing, between 09:00 and 16:30 and none in the 12:00-14:00 break |
| Booking.SlotTimes | app/book-appointment/page.tsx:38-51 | each slot reads back as its minute of the day |
| Booking.FindDoctor | app/book-appointment/page.tsx:74 | the first doctor with the id, or none exactly when no doctor has it |
| Booking.FindDay | app/book-appointment/page.tsx:150 | the first availability entry for the weekday, or none exactly when no entry has it |
| Booking.DateAvailability | app/book-appointment/page.tsx:138-157 | no doctor or a day before today is unavailable; with availability entries, a date is available iff the first entry for its weekday is flagged available; without entries, iff it is Monday to Friday |
| Booking.BookingCheck | app/book-appointment/page.tsx:83-102 | missing fields are reported before a missing user, which is reported before a past date; the check passes iff all fields are filled, the user is logged in and the date is not before today |
| Booking.PastDateIsDayGranular | app/book-appointment/page.tsx:94-102 | today is accepted whatever the time; an earlier day gets the message, which names today as yyyy-MM-dd |
| Booking.BookingRequestFields | app/book-appointment/page.tsx:107-112 | the request carries the doctor id, the selected time, the trimmed reason, and a date text that reads back as the selected date |
| Booking.DateReadsBack | app/book-appointment/page.tsx:109 | yyyy-MM-dd formatting of a valid date with a four-digit year parses back to the same date |
| Booking.BookingPage.SelectDoctor | app/book-appointment/page.tsx:73-78 | the selection becomes the first doctor with the id (or none), and the date and time are cleared |
| Booking.BookingPage.Submit | app/book-appointment/page.tsx:80-128 | a failed check only sets its message and sends nothing; a passed check sends the request built from the form and ends loading, then a reply with a checkout URL redirects there with the error cleared, any other reply shows its error or "Failed to create payment session", and an exception shows "Network error occurred" |
| Booking.BookingPage.Send | app/book-appointment/page.tsx:104-127 | the error is cleared while the request is in flight; the reply then redirects or sets its message, and loading ends |
| Booking.BookingPage.AwaitBooking | app/book-appointment/page.tsx:114-127 | a successful reply with a checkout URL redirects there; any other reply shows its error or the default; an exception shows "Network error occurred"; loading ends |
| PaymentButton.Button.HandlePayment | components/payment-button.tsx:34-73 | without a token only the login error is set and nothing is sent; otherwise the props are sent, an ok reply with a checkout URL redirects, any other reply shows `detail` or the default, an exception the network message, and loading ends |
| PaymentButton.Button.AwaitReply | components/payment-button.tsx:59-72 | the three reply outcomes and the loading reset, as in `handlePayment` |
| PaymentSuccess.PageView | app/payment/success/page.tsx:54-93 | loading renders first, then a non-empty error, then the result, which is successful exactly when `isPaymentSuccessful` holds |
| PaymentSuccess.ResultText | app/payment/success/page.tsx:93-136 | the title is "Payment Successful!" iff the status is "paid" and the appointment is paid; otherwise "Payment Processing" with the status or "Unknown"; the appointment line is "Confirmed" iff the appointment is paid |
| PaymentSuccess.Page.OnLoad | app/payment/success/page.tsx:20-30 | without a session id the error is "No payment session found" and nothing is verified; otherwise that id is verified; loading ends in every case |
| PaymentSuccess.Page.VerifyPayment | app/payment/success/page.tsx:32-52 | an ok reply stores the status; a failed reply shows `detail` or "Failed to verify payment"; an exception "Network error occurred"; loading ends |
| PaymentSuccess.AfterLoad | app/payment/success/page.tsx:20-93 | after loading the page shows an error or a result, and a successful result only follows an ok verification of a paid, paid-appointment session |
| AppointmentSuccess.SessionPath | app/appointments/success/page.tsx:44 | the fetched path ends with the session id after the fixed "/payments/session/" prefix |
| AppointmentSuccess.PageView | app/appointments/success/page.tsx:67-155 | loading renders first, then a non-empty error, then the success content, which shows the details when present and the session id otherwise |
| AppointmentSuccess.Page.OnLoad | app/appointments/success/page.tsx:28-65 | without a session id the error is "No session ID provided"; without a truthy entry under the storage key 'token' the page redirects to /login and fetches nothing; otherwise the three fetch outcomes; loading ends in every case |
| AppointmentSuccess.SignedInStorageHasNoToken | app/appointments/success/page.tsx:37-41 | a storage holding only the "auth_token" and "auth_user" entries that sign-in writes gives the page no token, so a signed-in user is sent to /login |
| AppointmentSuccess.Page.FetchAppointmentDetails | app/appointments/success/page.tsx:36-62 | the redirect, the ok, non-ok and thrown outcomes, and the `finally` loading reset |
| AppointmentSuccess.RedirectRendersSuccess | app/appointments/success/page.tsx:38-42 | after the /login redirect the page still renders the success header with the session id |
| AppointmentSuccess.DetailsShownIff | app/appointments/success/page.tsx:51-155 | the details are rendered exactly when a session id and a token were present and the fetch was ok |
| Appointments.Upcoming | app/appointments/page.tsx:127-132 | an appointment is listed exactly when it is scheduled or confirmed and its date and time are not before now |
| Appointments.Past | app/appointments/page.tsx:134-140 | an appointment is listed exactly when it is completed, cancelled or no-show, or scheduled/confirmed with date and time before now |
| Appointments.Partition | app/appointments/page.tsx:126-143 | the two tabs split the list: together they hold every appointment exactly once, and each keeps the input order (both distribute over concatenation) |
| Appointments.UnparseableIsUpcoming | app/appointments/page.tsx:129 | a scheduled or confirmed appointment whose date and time do not parse is upcoming, never past |
| Appointments.CancelOnlyWhenUpcoming | app/appointments/page.tsx:237 | a cancel button is shown only for a scheduled appointment on the upcoming tab |
| Appointments.CancelById | app/appointments/page.tsx:113-115 | same length and ids; entries with the id become cancelled with every other field kept; all other entries are unchanged |
| Appointments.CancelLeavesUpcoming | app/appointments/page.tsx:113-132 | after a cancel the upcoming tab is the old one without the cancelled id, in the same order |
| Appointments.Page.FetchData | app/appointments/page.tsx:36-62 | without a user nothing happens (the page stays loading); otherwise a successful reply replaces the list and loading ends |
| Appointments.Page.HandleCancel | app/appointments/page.tsx:106-123 | a declined confirmation changes nothing; a successful cancel applies `CancelById`; a failed one keeps the list and alerts "Failed to cancel appointment: " with the error |
| Dashboard.Kept | app/dashboard/page.tsx:64-68 | kept exactly when scheduled or confirmed with a parseable date and time at or after now |
| Dashboard.UpcomingOnDashboard | app/dashboard/page.tsx:63-74 | at most three appointments |
| Dashboard.DashboardEarliest | app/dashboard/page.tsx:69-74 | the result is the min(3, kept) earliest kept appointments, sorted by date and time, each taken from the kept list no more often than it occurs there |
| Dashboard.SameSetAsAppointmentsPage | app/dashboard/page.tsx:63-74 | every dashboard appointment is upcoming on the appointments page, and conversely for parseable ones; an unparseable one never reaches the dashboard |
| Dates.Weekday | lib/types.ts:40 | the weekday is in 0..6 |
| Dates.WeekdayAnchors | lib/types.ts:40 | 1970-01-01 is day 0 and a Thursday (4); 2025-03-10 is a Monday (1), so 0 is Sunday |
| Dates.NextDayInMonth | lib/types.ts:40 | the next day of a month has the next day number and the next weekday |
| Dates.ParseYmd | app/book-appointment/page.tsx:109 | only valid calendar dates are read from yyyy-MM-dd text |
| Dates.ParseFormatYmd | app/book-appointment/page.tsx:109 | formatting a valid date with a four-digit year as yyyy-MM-dd and reading it back gives the same date |
| Dates.ParseTimeMs | app/appointments/page.tsx:129 | a parsed HH:mm time of day is between 0 and 24 hours |
| Dates.Instant | app/dashboard/page.tsx:66 | an instant exists only when both the date and the time parse |
| Dates.InstantMonotoneInTime | app/dashboard/page.tsx:69-73 | on one date, a later time gives a later instant |
| Initials.Initials | app/appointments/page.tsx:69-75 | at most two letters or the page's fallback, and the fallback for an empty name |
| Initials.InitialsOfWords | app/dashboard/page.tsx:55-61 | for a name of space-separated words: the uppercased first letters of the first two words, or of the only word |
| Initials.UserInitials | components/admin/user-management.tsx:127-134 | at most two letters, or "U", which an empty name gives |
| Initials.UserInitialsOfWords | components/admin/user-management.tsx:127-134 | for a name of space-separated words: the uppercased first letters of the first and the last word |
| ResetPassword.ValidatePassword | app/reset-password/page.tsx:34-40 | the first failing rule is reported, in the order length below 8, no lowercase, no uppercase, no digit |
| ResetPassword.ValidIff | app/reset-password/page.tsx:34-40 | no message exactly when the password has at least 8 characters and contains a lowercase letter, an uppercase letter and a digit |
| ResetPassword.SubmitCheck | app/reset-password/page.tsx:47-65 | the password rules come first, then "Passwords do not match", then "Invalid reset token"; the check passes exactly when all three hold |
| ResetPassword.Page.OnLoad | app/reset-password/page.tsx:25-32 | a token parameter is kept; without one the invalid-link message is shown |
| ResetPassword.Page.HandleSubmit | app/reset-password/page.tsx:42-92 | a failed check shows its message and sends nothing; otherwise token and password are sent, an ok reply sets success and the success message, a failed one shows `detail` or the default, an exception the network message; loading ends on every path |
| ChatbotService.Categorise | lib/chatbot-service.ts:8-84 | the category is the first of greeting, doctor, appointment, FAQ, specialty, emergency whose keywords occur in the message; none occurring gives the default |
| ChatbotService.GreetingLine | lib/chatbot-service.ts:11 | "Hello!" without a user; with one, "Hello undefined!", since the user record has no `firstName` |
| ChatbotService.DoctorQueryReply | lib/chatbot-service.ts:86-121 | a successful doctor list shows its first three doctors and counts the rest; otherwise the generic doctor text |
| ChatbotService.AppointmentQueryReply | lib/chatbot-service.ts:123-193 | no user gives the login prompt; with a user, "book"/"schedule" gives the booking guidance exactly; otherwise a listing request with a successful reply gives the upcoming list when some appointment is scheduled and "no upcoming" when none is; the help text exactly in the remaining cases; the list holds the scheduled appointments, at most two shown, "and more" exactly when there are more than two |
| ChatbotService.FaqReply | lib/chatbot-service.ts:195-261 | hours/open, then cost/price/fee, then insurance, then cancel/reschedule, then the generic list: each answer is given exactly when its words occur and no earlier answer's words do |
| ChatbotService.SpecialtyNames | lib/chatbot-service.ts:264-271 | the specialty keys in their insertion order |
| ChatbotService.SpecialtyQueryReply | lib/chatbot-service.ts:263-317 | the first specialty key occurring in the message is chosen; the listed doctors are exactly those whose lowercased specialty contains it; a note without doctors only when the fetch failed or no doctor matches; no key gives the specialty list |
| ChatbotService.ProcessMessage | lib/chatbot-service.ts:5-54 | the default reply, echoing the original message, is given exactly when no category matches |
| ChatbotService.Dispatch | lib/chatbot-service.ts:5-39 | each category leads to its own handler's reply, and an appointment query without a user to the login prompt |
| ChatbotService.GreetingShadows | lib/chatbot-service.ts:56-59 | "psychiatry" and "difficulty breathing" contain "hi" and are answered as greetings |
| Types.ParseStatus | lib/types.ts:53 | a status read from a text has that text as its wire name |
| Types.StatusNames | lib/types.ts:53 | every status reads back from its wire name, and a text is a status name exactly when it is one of the five |
| Types.ParsePaymentStatus | lib/types.ts:55 | a payment status read from a text has that text as its wire name |
| Types.PaymentStatusNames | lib/types.ts:55 | a payment status reads back from its wire name, and no other text is one |
| Types.Succeed | lib/types.ts:74-79 | a success carries the data and no error |
| Types.Fail | lib/types.ts:74-79 | a failure carries the error and no data |
| Types.SenderNamesDistinct | lib/types.ts:113 | "user" and "bot" tell the two senders apart |
| ChatbotWidget.HiddenPages | components/chatbot/chatbot-widget.tsx:27-28 | the widget hides exactly on "/login" and "/register" |
| ChatbotWidget.WelcomeText | components/chatbot/chatbot-widget.tsx:29-47 | the welcome greets the user by name when there is one and says plain "Hello!" otherwise; the admin line appears exactly when the signed-in user has the admin role, and the capabilities and closing lines always |
| ChatbotWidget.DelayOr | components/chatbot/chatbot-widget.tsx:135 | a given non-zero delay is used; an absent or zero delay falls back to the default |
| ChatbotWidget.PageTarget | components/chatbot/chatbot-widget.tsx:155-165 | a page name in the table maps to its path; any other name to "/" followed by the name |
| ChatbotWidget.PageTargetsAbsolute | components/chatbot/chatbot-widget.tsx:155-189 | both page tables give absolute paths, and they agree on every name they share |
| ChatbotWidget.RedirectMatch | components/chatbot/chatbot-widget.tsx:152 | a match captures a non-empty run of word characters; no match means no redirect phrase followed by spaces and a word occurs at any position |
| ChatbotWidget.GoToProfile | components/chatbot/chatbot-widget.tsx:152-165 | "Go to profile" captures "profile", which leads to "/profile" |
| ChatbotWidget.ResponseForm | components/chatbot/chatbot-widget.tsx:148-177 | a reply whose text matches the redirect pattern is shown with a check mark and navigates after 1000 ms to the mapped page; otherwise the text is shown as is, with no navigation |
| ChatbotWidget.ListForm | components/chatbot/chatbot-widget.tsx:229-258 | a null list falls back to the raw reply; a list, empty or not, navigates to its page after 1000 ms |
| ChatbotWidget.HeadForm | components/chatbot/chatbot-widget.tsx:130-198 | a result exactly when the first test that holds is one of steps 1-4 (navigation response with data, message response, truthy `response`, truthy `page`), and the branch taken is that step |
| ChatbotWidget.TailForm | components/chatbot/chatbot-widget.tsx:229-290 | when no step 1-4 test holds, the branch is the first later step whose test holds (doctors, appointments, payment redirect, `navigate_to`), except that a `null` list gives the raw text; with none of them the raw reply is shown unchanged |
| ChatbotWidget.SendDispatch | components/chatbot/chatbot-widget.tsx:121-290 | a reply that is not a JSON object is shown verbatim without effect, and so is one that takes no branch; the second `response` test (branch 5) and the second message-response test (branch 9) are never taken |
| ChatbotWidget.FirstTest | components/chatbot/chatbot-widget.tsx:130-290 | the first of the ten tests of the chain that holds, with every earlier one failing; 0 exactly when none holds |
| ChatbotWidget.SendDispatchChain | components/chatbot/chatbot-widget.tsx:130-290 | the branch taken is the first step whose test holds, in the order navigation_response, message_response, response, page, doctors, appointments, payment_redirect, navigate_to, except that a `null` list gives the raw text; steps 5 and 9 are never first |
| ChatbotWidget.SendDispatchOrder | components/chatbot/chatbot-widget.tsx:130-198 | a navigation response is always handled by the first branch; the `response` and `page` branches navigate only to absolute paths |
| ChatbotWidget.SuggestionDispatch | components/chatbot/chatbot-widget.tsx:364-404 | a suggestion reply navigates exactly when it is a navigation response whose action is "navigate" with a truthy path, after its delay or 1500 ms |
| ChatbotWidget.SendAnswer | components/chatbot/chatbot-widget.tsx:117-331 | an exception gives the contact-support text; an unsuccessful reply or one without data gives its error or the default, without effect |
| ChatbotWidget.SuggestionAnswer | components/chatbot/chatbot-widget.tsx:358-421 | an exception, and a successful reply without data, give the contact-support text; an unsuccessful reply gives its error or the default |
| ChatbotWidget.Widget.ShowWelcome | components/chatbot/chatbot-widget.tsx:29-47 | the conversation is replaced by the single welcome message |
| ChatbotWidget.Widget.ClearChat | components/chatbot/chatbot-widget.tsx:53-57 | the conversation is emptied and the widget closed |
| ChatbotWidget.Widget.HandleSendMessage | components/chatbot/chatbot-widget.tsx:88-336 | a blank input or a pending send changes nothing; without a user only the login notice is appended; otherwise the trimmed text is sent, the user message and the answer are appended, the input cleared and loading ended |
| ChatbotWidget.Widget.Deliver | components/chatbot/chatbot-widget.tsx:92-336 | the shared body of sending a non-blank text: the login notice without a user, else both messages appended and the answer's effect returned |
| ChatbotWidget.Widget.HandleSuggestionClick | components/chatbot/chatbot-widget.tsx:340-428 | a pending send changes nothing; otherwise the suggestion is sent without any user check and both messages are appended |
| DoctorsPage.FilteredDoctors | app/doctors/page.tsx:36-54 | a doctor is listed exactly when it is one of the fetched doctors and passes both the search term (name or specialty, ignoring case) and the specialty selector ("all" passes everyone) |
| DoctorsPage.FilteredIsSublist | app/doctors/page.tsx:36-54 | the list is the fetched list filtered in its own order, so a sub-sequence of it |
| DoctorsPage.SpecialtyColumn | app/doctors/page.tsx:56 | one specialty per doctor, in the doctors' order |
| DoctorsPage.Specialties | app/doctors/page.tsx:56 | the selector offers each specialty that occurs, and each one once |
| DoctorsPage.SpecialtiesInFirstOccurrenceOrder | app/doctors/page.tsx:56 | the specialties appear in the order of their first occurrence |
| DoctorsPage.DoctorInitials | app/doctors/page.tsx:58-64 | the shared initials with fallback "D": at most two letters, or "D", which an empty name gives |
| UserManagement.RegularUsers | components/admin/user-management.tsx:42 | the table keeps exactly the fetched users whose role is not "admin" |
| UserManagement.SearchUsers | components/admin/user-management.tsx:61-69 | a user is shown exactly when it is in the table and its name or email contains the term ignoring case, or its phone number contains it |
| UserManagement.EmptySearchShowsAll | components/admin/user-management.tsx:61-69 | an empty search term shows the whole table |
| UserManagement.EditFormOf | components/admin/user-management.tsx:71-81 | the edit form copies email, phone and birth date; a name without a space is all first name; otherwise first name, a space and last name give back the name; the first name never contains a space, so it is the first space-separated word |
| UserManagement.EditNameRoundTrip | components/admin/user-management.tsx:74-75 | for a name of two or more non-empty words, joining the form's first and last name the way the update call does gives back the name |
| UserManagement.ReplaceById | components/admin/user-management.tsx:92-94 | an update replaces every user with the edited id by the returned one and keeps the rest, in place |
| UserManagement.RemoveById | components/admin/user-management.tsx:115 | a user stays exactly when its id differs from the deleted one |
| UserManagement.RemoveExactly | components/admin/user-management.tsx:115 | deletion drops exactly the users with that id and keeps the others in order |
| UserManagement.Page.FetchUsers | components/admin/user-management.tsx:33-58 | a successful reply fills the table with the non-admin users; a failed one empties it and alerts "Failed to fetch users: " with the error; an exception empties it and alerts "Error fetching users: "; loading ends |
| UserManagement.Page.HandleEditUser | components/admin/user-management.tsx:71-81 | the user becomes the edited one and the form is filled from it |
| UserManagement.Page.HandleUpdateUser | components/admin/user-management.tsx:82-105 | without an edited user nothing is sent; otherwise the id and form are sent, a successful reply replaces the user, closes the editor and alerts success, a failure or exception alerts and changes nothing else |
| UserManagement.Page.HandleDeleteUser | components/admin/user-management.tsx:107-125 | nothing is sent unless confirmed; success removes the user and alerts success; a failure or exception alerts and keeps the table |
| UserManagement.DeletedNotShown | components/admin/user-management.tsx:61-69 | after a deletion no shown user has the deleted id, and every shown user was in the table before |
| DoctorManagement.ReplaceDoctor | components/admin/doctor-management.tsx:65 | an update replaces the doctor with the edited id by the returned one and keeps the rest, in place |
| DoctorManagement.ReplaceKeepsIds | components/admin/doctor-management.tsx:65 | when the returned doctor keeps its id the ids are unchanged, and an id not present leaves the list as it was |
| DoctorManagement.RemoveDoctor | components/admin/doctor-management.tsx:101 | a doctor stays exactly when its id differs from the deleted one |
| DoctorManagement.RemoveExactly | components/admin/doctor-management.tsx:101 | deletion drops exactly the doctors with that id and keeps the others in order |
| DoctorManagement.DoctorInitials | components/admin/doctor-management.tsx:119-126 | the common initials with fallback "DR" (the uppercased first letters of the first two words, by `Initials.InitialsOfWords`): at most two letters, or "DR", which an empty name gives |
| DoctorManagement.Page.FetchDoctors | components/admin/doctor-management.tsx:42-48 | a successful reply replaces the list; otherwise the list stays; loading ends |
| DoctorManagement.Page.ResetForm | components/admin/doctor-management.tsx:108-117 | no doctor is being edited and the form is empty |
| DoctorManagement.Page.HandleSubmit | components/admin/doctor-management.tsx:50-83 | the form is sent as an update of the edited doctor or as a creation; success replaces or appends the returned doctor, resets the form and closes the dialog; failure alerts the error or the default for that action and changes nothing else |
| DoctorManagement.Page.HandleEdit | components/admin/doctor-management.tsx:85-95 | the doctor becomes the edited one, the form shows its name, specialty and fee as text with an empty bio and no image, and the dialog opens |
| DoctorManagement.Page.HandleDelete | components/admin/doctor-management.tsx:97-106 | nothing is sent unless confirmed; success removes the doctor; failure alerts the error or "Failed to delete doctor" |
| AppointmentManagement.StatusCount | components/admin/appointment-management.tsx:138-164 | a status card's count is at most the number of appointments |
| AppointmentManagement.StatusCountsTotal | components/admin/appointment-management.tsx:138-164 | the counts of the five statuses add up to the number of appointments |
| AppointmentManagement.FilteredAppointments | components/admin/appointment-management.tsx:100 | an appointment is shown exactly when the filter is "all" or names its status |
| AppointmentManagement.FilterByName | components/admin/appointment-management.tsx:100 | "all" shows everything; a status name shows that status's appointments in order, as many as its card counts |
| AppointmentManagement.FindDoctor | components/admin/appointment-management.tsx:44-46 | a found doctor is in the list with that id; none is found only when no doctor has it |
| AppointmentManagement.FindUser | components/admin/appointment-management.tsx:48-50 | a found user is in the list with that id; none is found only when no user has it |
| AppointmentManagement.Rows | components/admin/appointment-management.tsx:215-219 | every row pairs an appointment with its doctor and patient, and every appointment whose doctor and patient are both found has a row |
| AppointmentManagement.RowsAppend | components/admin/appointment-management.tsx:215-219 | the rows keep the appointments' order: the rows of two lists in sequence are the rows of the first followed by those of the second |
| AppointmentManagement.UpdateStatus | components/admin/appointment-management.tsx:86-98 | the appointment with that id gets the new status and update time; the others are unchanged, in place |
| AppointmentManagement.UpdateMovesCount | components/admin/appointment-management.tsx:86-98 | with distinct ids, changing one appointment's status moves one unit from its old status's count to the new one's |
| AppointmentManagement.Page.FetchData | components/admin/appointment-management.tsx:23-41 | each successful reply replaces its list, a failed one keeps it; the users are the sample users; loading ends |
| AppointmentManagement.Page.HandleStatusUpdate | components/admin/appointment-management.tsx:86-98 | the list becomes its status update, locally |
| AdminAnalytics.StatsOf | components/admin/admin-analytics.tsx:55-64 | a doctor's bar counts its appointments and the completed ones among them, at most all appointments, with revenue the completed count times its fee |
| AdminAnalytics.AppointmentsPerDoctor | components/admin/admin-analytics.tsx:55-64 | one bar per doctor, in the doctors' order |
| AdminAnalytics.AppointmentsByStatus | components/admin/admin-analytics.tsx:67-88 | the status chart has four slices, labelled "Scheduled", "Completed", "Cancelled" and "No Show" in that order, each valued at the number of appointments with that status, none above the total |
| AdminAnalytics.ChartLeavesOutConfirmed | components/admin/admin-analytics.tsx:67-88 | the four slices and the confirmed appointments, which no slice shows, add up to all appointments |
| AdminAnalytics.SpecialtyNames | components/admin/admin-analytics.tsx:101-112 | one name per tally entry, in order |
| AdminAnalytics.SumCountsIncrement | components/admin/admin-analytics.tsx:105-106 | bumping one entry's count raises the total by one |
| AdminAnalytics.FindSpecialty | components/admin/admin-analytics.tsx:103 | the index of the entry for the specialty, or -1 exactly when no entry has it |
| AdminAnalytics.TallyBump | components/admin/admin-analytics.tsx:104-106 | bumping the existing entry of a specialty keeps the tally exact for one more doctor |
| AdminAnalytics.TallyAppend | components/admin/admin-analytics.tsx:107-109 | appending an entry with count 1 for a new specialty keeps the tally exact for one more doctor |
| AdminAnalytics.TallyStep | components/admin/admin-analytics.tsx:102-111 | one step of the reduction keeps the tally exact |
| AdminAnalytics.SpecialtyData | components/admin/admin-analytics.tsx:101-112 | the entries are the distinct specialties in first-occurrence order, the same list the doctors page offers, each counting the doctors with it, and the counts add up to the number of doctors |
| AdminAnalytics.TotalRevenueStep | components/admin/admin-analytics.tsx:114-119 | the revenue of a list is its first appointment's fee when completed plus the revenue of the rest |
| AdminAnalytics.NoMatchNoRevenue | components/admin/admin-analytics.tsx:114-119 | completed appointments whose doctor is not found add nothing |
| AdminAnalytics.CompletedForStep | components/admin/admin-analytics.tsx:60 | the completed count of a doctor is that of the rest plus one when the first appointment is that doctor's and completed |
| AdminAnalytics.RevenueStep | components/admin/admin-analytics.tsx:55-64 | the sum of the bars' revenue is that of the rest plus the first appointment's share over all doctors |
| AdminAnalytics.ShareSumNone | components/admin/admin-analytics.tsx:55-64 | an appointment whose doctor is not in the list adds nothing to any bar |
| AdminAnalytics.ShareSumIsFee | components/admin/admin-analytics.tsx:55-64 | with distinct ids an appointment adds its doctor's fee to the bars when it is completed, and nothing otherwise |
| AdminAnalytics.NoAppointmentsNoRevenue | components/admin/admin-analytics.tsx:55-64 | without appointments every bar has no revenue |
| AdminAnalytics.RevenueAgrees | components/admin/admin-analytics.tsx:55-119 | with distinct doctor ids the total revenue card equals the sum of the per-doctor revenues |
| AdminAnalytics.FlatFeeRevenue | components/admin/admin-analytics.tsx:114-119 | when every doctor charges 200 and every completed appointment's doctor is found, the total revenue equals the admin page's 200-per-completed figure |
| AdminAnalytics.Quotient | components/admin/admin-analytics.tsx:156 | the whole quotient of a natural number by a positive one |
| AdminAnalytics.QuotientMonotone | components/admin/admin-analytics.tsx:156 | the quotient grows with the dividend |
| AdminAnalytics.QuotientExact | components/admin/admin-analytics.tsx:156 | m*k + r with r below m has quotient k |
| AdminAnalytics.RoundedRatio | components/admin/admin-analytics.tsx:156 | the ratio rounded half up: the nearest whole number, halves going up |
| AdminAnalytics.AveragePerDoctor | components/admin/admin-analytics.tsx:156 | appointments per doctor rounded half up, and 0 without doctors |
| AdminAnalytics.CompletionRate | components/admin/admin-analytics.tsx:169-173 | the completed share as a percentage of the exact ratio, rounded half up, and 0 without appointments |
| AdminAnalytics.CompletionRateBounds | components/admin/admin-analytics.tsx:169-173 | the rate is at most 100, exactly 100 when all appointments are completed and 0 when none are |
| AdminAnalytics.Analytics.FetchData | components/admin/admin-analytics.tsx:32-52 | each successful reply replaces its list, a failed one keeps it; the users are the sample users; loading ends |
| AdminAnalytics.Analytics.ActiveUsers | components/admin/admin-analytics.tsx:186-187 | the active users are at most all users |
| AdminPage.ActiveUsers | app/admin/page.tsx:49 | at most all users; all of them exactly when each is flagged active, none exactly when none is |
| AdminPage.SummaryOf | app/admin/page.tsx:48-53 | the cards count users, active users as `ActiveUsers` (the `isActive` filter), and appointments, scheduled and completed by filter, the two together at most the total, revenue 200 per completed appointment, and "Today's Appointments" showing the scheduled count |
| AdminPage.TodayIgnoresDates | app/admin/page.tsx:211-214 | adding a scheduled appointment on any date raises "Today's Appointments" by one |
| Profile.SetField | app/profile/page.tsx:32-37 | a change sets the named field and leaves the other fields and the image as they were |
| Profile.SetOwnValue | app/profile/page.tsx:32-37 | setting a field to its own value changes nothing |
| Profile.EditsCommute | app/profile/page.tsx:32-37 | changes to two different fields commute |
| Profile.LastEditWins | app/profile/page.tsx:32-37 | of two changes to one field the last one wins |
| Profile.FormOf | app/profile/page.tsx:24-30 | the form copies the user's fields, or is all empty without a user |
| Profile.SavedForm | app/profile/page.tsx:144-150 | after a save the form shows the reply's fields, an absent one as empty |
| Profile.ValidationText | app/profile/page.tsx:154 | a validation item shows its `msg`, else its `message`, else "Validation error", never empty |
| Profile.ValidationTexts | app/profile/page.tsx:154 | one text per validation item, in order |
| Profile.JoinStartsWithFirst | app/profile/page.tsx:154 | the joined list starts with its first text |
| Profile.SaveErrorText | app/profile/page.tsx:153-158 | a list detail shows every item's text joined by ", ", starting with the first; a non-empty text detail is shown as is; a missing or falsy one gives the default; the text is empty only for an empty list |
| Profile.ProfileInitials | app/profile/page.tsx:182-188 | the shared initials with fallback "U": at most two letters, or "U", which an empty name gives |
| Profile.Page.constructor | app/profile/page.tsx:17-30 | the page starts from the user's form, not editing, saving or uploading, with no message |
| Profile.Page.StartEditing | app/profile/page.tsx:304 | the edit button turns editing on |
| Profile.Page.HandleChange | app/profile/page.tsx:32-37 | the form becomes the field change of the old form |
| Profile.Page.HandleCancel | app/profile/page.tsx:170-180 | the form is reset from the user, editing ends and the error clears |
| Profile.Page.SetImage | app/profile/page.tsx:63-71 | the form's image and the signed-in user's image become the new address |
| Profile.Page.HandleImageUpload | app/profile/page.tsx:39-84 | without a file nothing changes; a successful reply sets the new image_url in the form and in the signed-in user (no user stays no user) and shows the success message; a failure shows its detail or the default; an exception the upload error; uploading ends |
| Profile.Page.HandleRemoveImage | app/profile/page.tsx:86-121 | a successful reply clears the image in the form and in the signed-in user (no user stays no user) and shows the success message; a failure shows its detail or the default; an exception the removal error; uploading ends |
| Profile.Page.HandleSave | app/profile/page.tsx:123-168 | the form is sent; an ok reply ends editing, shows the success message and fills the form from the reply; otherwise the detail text or the exception message is shown and the form kept; saving ends |

## Left out

- Rendering: JSX, styling, icons, skeletons, the navigation bar and the static cancel pages have no decision logic. Of the presentation helpers only the avatar initials are modelled.
- Timers: `setTimeout` calls that clear messages, refocus the input, or delay a push are reduced to their outcome. Delayed pushes are returned as an effect value carrying the delay. Clearing a message after 3 or 5 seconds is not modelled.
- Transport: `fetch`, axios, `localStorage`, the router and `window.location` are inputs and outputs. The client's storage is a `map` from key to text. `Api.Session` keeps only the two entries the API layer writes, "auth_token" and "auth_user", as two fields, and applies the client's 401 rule to them.
- JSON: the chatbot reply and response bodies are given already parsed, with a not-an-object case.
- Concurrency: `Promise.all` and the other awaits are taken in program order. No interleaving of handlers is modelled.
- Floating point: `parseFloat` of doctor fees in the doctor mappings (lib/api.ts:282) is not modelled; fees are natural numbers. `Math.round` of the average per doctor is modelled by rounding the exact quotient half up. That is what `Math.round` gives there, because a quotient of whole numbers that lies halfway is represented exactly. `toLocaleString` formatting is not modelled.
- Dates: the time zone is not modelled. Instants are local wall-clock milliseconds, and date-fns parsing is reduced to the yyyy-MM-dd and HH:mm forms the pages produce.
- AdminAnalytics.CompletionRate: rounds the exact ratio 100c/n half up, while the source rounds the double `(c / n) * 100`. IEEE double arithmetic is not modelled. The two differ when the double product falls just below a half where the exact value is a half: by IEEE arithmetic, 23 completed of 40 gives 57 in the source and 58 in the model.
- Api.Session.Login: the GET cache entries that a successful POST /auth/login or /auth/register drops are not part of `Session`. `ApiClient.Client.Post` states that invalidation.
- Booking.IsDateAvailable: days are compared by year, then month, then day (`Dates.DayBefore`), not through their instants as `Date` comparison does. The two orders agree on valid calendar dates, but the model does not prove this. The same holds for `Booking.BookingCheck` and `Booking.PastDateIsDayGranular`.
- Text: case mapping covers ASCII letters only; Unicode case folding is not modelled. Lengths count characters, not UTF-16 code units, which matters to the password length rule only for characters outside the Basic Multilingual Plane.
- Text.Number: only blank text and decimal numerals are modelled; other numeric forms (signs, decimals, exponents, hexadecimal) are not.
- Types: backend status strings outside the five statuses are not modelled. A raw status is one of the five, or absent.
- The cache module `./cache`, which lib/api-client.ts imports, is not part of this model. The GET cache is a map, and its time-to-live is not modelled.
- lib/mock-data, where the admin pages' sample users come from, is not part of this model. The sample users are a parameter.
- The page maps of the chatbot widget are Dafny maps. JavaScript prototype keys such as "constructor", which `pageMap[name]` would also find, are not modelled.
- Doctor fetches are not modelled: the doctor mappings in lib/api.ts (`doctorsApi`, lib/api.ts:267-425), the doctors page fetch (app/doctors/page.tsx:23-33), the booking page's background fetch, and its preselection of a doctor from the query (app/book-appointment/page.tsx:52-70). Each page receives the fetched doctors as an input.
- The admin page's fetch (app/admin/page.tsx:25-46) is not modelled. It has the same shape as `AdminAnalytics.Analytics.FetchData`.
- lib/chatbot-service.ts: its doctor and appointment lookups are inputs. Nothing in the application calls this service, and the widget talks to the backend chatbot instead.
- The widget's `catch` branches (components/chatbot/chatbot-widget.tsx:323-331, 414-421) cannot fire in practice, since `chatbotApi.sendMessage` (lib/api.ts:581-588) catches every failure itself. The model still keeps them as the `Threw` outcome.
- The monthly chart of the analytics is constant mock data and is not modelled.
- The appointments page's cancel `catch` is not modelled: `appointmentsApi.cancelAppointment` catches every exception itself, so it cannot fire.
- The dashboard's total card is the list length and is not modelled separately.
- The appointment table's `getInitials(firstName, lastName)` (components/admin/appointment-management.tsx:52-54) is not modelled.
- Profile.Page.HandleImageUpload: the failure text is modelled for a text `detail` only. A non-text `detail` would be rendered by React and is not modelled.
- Profile.Page.HandleRemoveImage: the same restriction applies to its failure text.
- PaymentButton.Button.HandlePayment: a failed reply's `detail` is modelled as optional text only. A list or object `detail`, such as a validation error body, would become the error value as is; the model cannot represent that reply.
- PaymentButton.Button.AwaitReply: the same text-only `detail` restriction applies to its failure text.
- PaymentSuccess.Page.VerifyPayment: a failed verification's `detail` is modelled as optional text only. A list or object `detail` would become the error value as is and is not modelled.
- ResetPassword.Page.HandleSubmit: a failed reset's `detail` is modelled as optional text only. A list or object `detail` would become the message as is and is not modelled.
- The `isActive` flag, which the admin pages read, is not declared on `User`. The model attaches it to the sample user records (`AdminPage.SampleUser`).
