/** The floating AI-assistant widget: it keeps the chat transcript, sends the
    typed message or a suggestion to the chatbot endpoint, and turns the reply,
    which may be JSON in one of several formats, into a bot message and possibly
    a delayed navigation. */
module ChatbotWidget {
  import opened Wrappers
  import opened Text
  import opened Types

  // ---------------------------------------------------------------------------
  // Visibility and the welcome message
  // ---------------------------------------------------------------------------

  /** `shouldHideChatbot`: the widget renders nothing on the sign-in and sign-up
      pages. */
  predicate ShouldHide(pathname: string)
  {
    pathname == "/login" || pathname == "/register"
  }

  /** Exactly the two authentication pages hide the widget. */
  lemma HiddenPages(pathname: string)
    ensures ShouldHide(pathname) <==> pathname in {"/login", "/register"}
  {
  }

  const AdminLine := "\U{2022} Admin: Managing doctors and users"

  /** The welcome message: it greets a signed-in user by name and lists the
      admin capability only to an admin. */
  function WelcomeText(user: Option<User>): (r: string)
    ensures user.Some? ==> "Hello " + user.value.name + "!" <= r
    ensures user.None? ==> "Hello!" <= r
    ensures user.None? ==> r == "Hello!" + Capabilities + Closing
    ensures user.Some? && user.value.is_adman == "admin" ==> r == "Hello " + user.value.name + "!" + Capabilities + AdminLine + Closing
    ensures user.Some? && user.value.is_adman != "admin" ==> r == "Hello " + user.value.name + "!" + Capabilities + Closing
  {
    var admin := user.Some? && user.value.is_adman == "admin";
    var greeting := if user.Some? then "Hello " + user.value.name + "!" else "Hello!";
    var rest := Capabilities + (if admin then AdminLine else "") + Closing;
    PrefixOfAppend(greeting, rest);
    greeting + rest
  }

  const Capabilities := " I'm your HealthCare+ AI assistant. I can help you with:\n\n" +
    "\U{2022} Finding doctors by specialty or name\n\U{2022} Booking appointments\n\U{2022} Managing your profile\n"
  const Closing := "\n\nHow can I assist you today?"

  lemma PrefixOfAppend(a: string, b: string)
    ensures a <= a + b
  {
    assert (a + b)[..|a|] == a;
  }

  // ---------------------------------------------------------------------------
  // The parsed reply
  // ---------------------------------------------------------------------------

  /** The `navigation` object of a reply. */
  datatype Navigation = Navigation(path: Option<string>, action: Option<string>, delay_ms: Option<int>)

  /** A `doctors` or `appointments` field: absent, null, or an array of some length. */
  datatype JsonList = Absent | NullList | ListOf(length: nat)

  /** The fields of a reply object the widget reads (`type` is `kind`). */
  datatype ReplyObject = ReplyObject(
    kind: Option<string>,
    navigation: Option<Navigation>,
    message: Option<string>,
    response: Option<string>,
    page: Option<string>,
    doctors: JsonList,
    appointments: JsonList,
    payment_url: Option<string>,
    navigate_to: Option<string>,
    reply: Option<string>)

  /** `JSON.parse(reply)`: an object, or anything else (text that is not JSON, or
      JSON that is not an object, which in every branch leaves the raw text). */
  datatype ParsedReply = NotObject | Parsed(obj: ReplyObject)

  /** A chatbot reply: its raw text and what parsing it gives. */
  datatype ChatReply = ChatReply(raw: string, parsed: ParsedReply)

  /** A timer the widget starts: a router push or opening the payment page. */
  datatype Effect = NoEffect | Navigate(path: Option<string>, delayMs: int) | OpenPayment(url: Option<string>, delayMs: int)

  /** The bot text, the timer started, and which branch of the format chain was
      taken (0 when none was). */
  datatype Dispatched = Dispatched(text: string, effect: Effect, branch: nat)

  /** `d || dflt` for a delay in milliseconds. */
  function DelayOr(d: Option<int>, dflt: int): (r: int)
    ensures d.Some? && d.value != 0 ==> r == d.value
    ensures d.None? || d.value == 0 ==> r == dflt
  {
    if d.Some? && d.value != 0 then d.value else dflt
  }

  // ---------------------------------------------------------------------------
  // Page names
  // ---------------------------------------------------------------------------

  /** The page table of the `response` format. */
  const ResponsePages: map<string, string> := map[
    "dashboard" := "/dashboard", "appointments" := "/appointments", "appointment" := "/book-appointment",
    "admin" := "/admin", "profile" := "/profile", "doctors" := "/doctors", "doctor" := "/doctors"]

  /** The page table of the `page` format. */
  const PagePages: map<string, string> := map[
    "dashboard" := "/dashboard", "appointments" := "/appointments", "book-appointment" := "/book-appointment",
    "admin" := "/admin", "profile" := "/profile", "doctors" := "/doctors"]

  /** `pageMap[name] || "/" + name`: a table entry, else the name as a path. */
  function PageTarget(table: map<string, string>, name: string): (r: string)
    ensures name in table ==> r == table[name]
    ensures name !in table ==> r == "/" + name
  {
    if name in table then table[name] else "/" + name
  }

  /** Every target of either table is an absolute path, and the two tables agree
      on the names they share. */
  lemma PageTargetsAbsolute(name: string)
    ensures var r := PageTarget(ResponsePages, name); r != [] && r[0] == '/'
    ensures var r := PageTarget(PagePages, name); r != [] && r[0] == '/'
    ensures name in ResponsePages && name in PagePages ==> ResponsePages[name] == PagePages[name]
  {
  }

  // ---------------------------------------------------------------------------
  // The redirect phrase of the `response` format
  // ---------------------------------------------------------------------------

  /** The alternatives of `/(?:redirecting to|navigating to|go to|show|visit)\s+(\w+)/i`, in order. */
  const RedirectPhrases: seq<string> := ["redirecting to", "navigating to", "go to", "show", "visit"]

  /** `\w` */
  predicate IsWordChar(c: char)
  {
    'a' <= c <= 'z' || 'A' <= c <= 'Z' || '0' <= c <= '9' || c == '_'
  }

  /** The end of the run of white space starting at `i`. */
  function SpaceEnd(s: string, i: nat): (j: nat)
    requires i <= |s|
    ensures i <= j <= |s| && (j == |s| || !IsSpace(s[j]))
    ensures forall k :: i <= k < j ==> IsSpace(s[k])
    decreases |s| - i
  {
    if i < |s| && IsSpace(s[i]) then SpaceEnd(s, i + 1) else i
  }

  /** The end of the run of word characters starting at `i`. */
  function WordEnd(s: string, i: nat): (j: nat)
    requires i <= |s|
    ensures i <= j <= |s| && (j == |s| || !IsWordChar(s[j]))
    ensures forall k :: i <= k < j ==> IsWordChar(s[k])
    decreases |s| - i
  {
    if i < |s| && IsWordChar(s[i]) then WordEnd(s, i + 1) else i
  }

  /** The captured word when `phrase`, white space and a word start at `i`. */
  function PhraseAt(s: string, i: nat, phrase: string): (r: Option<string>)
    requires i <= |s|
    ensures r.Some? ==> r.value != [] && forall c :: c in r.value ==> IsWordChar(c)
  {
    var p := i + |phrase|;
    if p <= |s| && Lower(s[i..p]) == phrase then
      var j := SpaceEnd(s, p);
      var k := WordEnd(s, j);
      if p < j && j < k then Some(s[j..k]) else None
    else None
  }

  /** The alternatives from the `n`-th on, tried in order at position `i`. */
  function AlternativesAt(s: string, i: nat, n: nat): (r: Option<string>)
    requires i <= |s|
    ensures r.Some? ==> r.value != [] && forall c :: c in r.value ==> IsWordChar(c)
    ensures r.None? ==> forall m :: n <= m < |RedirectPhrases| ==> PhraseAt(s, i, RedirectPhrases[m]).None?
    decreases |RedirectPhrases| - n
  {
    if n >= |RedirectPhrases| then None
    else
      var r := PhraseAt(s, i, RedirectPhrases[n]);
      if r.Some? then r else AlternativesAt(s, i, n + 1)
  }

  /** `s.match(...)` from position `i` on: the capture of the leftmost match. */
  function RedirectMatch(s: string, i: nat): (r: Option<string>)
    requires i <= |s|
    ensures r.Some? ==> r.value != [] && forall c :: c in r.value ==> IsWordChar(c)
    ensures r.None? ==> forall q :: i <= q <= |s| ==> AlternativesAt(s, q, 0).None?
    decreases |s| - i
  {
    var here := AlternativesAt(s, i, 0);
    if here.Some? then here
    else if i == |s| then None
    else
      var later := RedirectMatch(s, i + 1);
      assert later.None? ==> forall q :: i <= q <= |s| ==> AlternativesAt(s, q, 0).None? by {
        if later.None? {
          forall q | i <= q <= |s|
            ensures AlternativesAt(s, q, 0).None?
          {
            if q == i {
              assert AlternativesAt(s, q, 0) == here;
            }
          }
        }
      }
      later
  }

  /** The phrase "go to" matches "Go to profile" at its start, capturing
      "profile". */
  lemma GoToAtStart()
    ensures PhraseAt("Go to profile", 0, RedirectPhrases[2]) == Some("profile")
  {
    var s := "Go to profile";
    var l := Lower(s[0..5]);
    assert l[0] == 'g' && l[1] == 'o' && l[2] == ' ' && l[3] == 't' && l[4] == 'o';
    assert l == "go to";
    assert SpaceEnd(s, 6) == 6;
    assert SpaceEnd(s, 5) == 6;
    assert WordEnd(s, 13) == 13;
    assert WordEnd(s, 12) == 13;
    assert WordEnd(s, 11) == 13;
    assert WordEnd(s, 10) == 13;
    assert WordEnd(s, 9) == 13;
    assert WordEnd(s, 8) == 13;
    assert WordEnd(s, 7) == 13;
    assert WordEnd(s, 6) == 13;
    assert s[6..13] == "profile";
  }

  /** Neither of the first two phrases matches "Go to profile" at its start. */
  lemma FirstPhrasesMiss()
    ensures PhraseAt("Go to profile", 0, RedirectPhrases[0]).None?
    ensures PhraseAt("Go to profile", 0, RedirectPhrases[1]).None?
  {
    var s := "Go to profile";
    assert Lower(s[0..13])[0] == 'g';
  }

  lemma LowerProfile()
    ensures Lower("profile") == "profile"
  {
    var p := Lower("profile");
    assert p[0] == 'p' && p[1] == 'r' && p[2] == 'o' && p[3] == 'f' && p[4] == 'i' && p[5] == 'l' && p[6] == 'e';
  }

  /** A reply such as "Go to profile" names the profile page. */
  lemma GoToProfile()
    ensures RedirectMatch("Go to profile", 0) == Some("profile")
    ensures PageTarget(ResponsePages, Lower("profile")) == "/profile"
  {
    var s := "Go to profile";
    FirstPhrasesMiss();
    GoToAtStart();
    assert AlternativesAt(s, 0, 2) == Some("profile");
    assert AlternativesAt(s, 0, 0) == Some("profile");
    LowerProfile();
  }

  // ---------------------------------------------------------------------------
  // Reply formats
  // ---------------------------------------------------------------------------

  const Check := "\U{2705} "

  /** The `response` format: with a redirect phrase, the text is marked and the
      router goes to the named page after a second; otherwise the text is shown
      as is. */
  function ResponseForm(response: string, branch: nat): (d: Dispatched)
    ensures d.branch == branch
    ensures RedirectMatch(response, 0).Some? ==>
      d.text == Check + response && d.effect == Navigate(Some(PageTarget(ResponsePages, Lower(RedirectMatch(response, 0).value))), 1000)
    ensures RedirectMatch(response, 0).None? ==> d.text == response && d.effect == NoEffect
  {
    match RedirectMatch(response, 0)
    case Some(name) => Dispatched(Check + response, Navigate(Some(PageTarget(ResponsePages, Lower(name))), 1000), branch)
    case None => Dispatched(response, NoEffect, branch)
  }

  /** A `doctors` or `appointments` array: a message with its length and a push to
      the page after a second; a null one throws, which leaves the raw text. */
  function ListForm(list: JsonList, raw: string, none: string, found: string, what: string, path: string, branch: nat): (d: Dispatched)
    requires list != Absent
    ensures list.NullList? ==> d == Dispatched(raw, NoEffect, 0)
    ensures list.ListOf? ==> d.effect == Navigate(Some(path), 1000) && d.branch == branch
  {
    match list
    case NullList => Dispatched(raw, NoEffect, 0)
    case ListOf(n) =>
      if n == 0 then Dispatched(none, Navigate(Some(path), 1000), branch)
      else Dispatched(found + NatToString(n) + " " + what, Navigate(Some(path), 1000), branch)
  }

  const NavigationResponse := "navigation_response"
  const MessageResponse := "message_response"
  const PaymentRedirect := "payment_redirect"
  const Processed := "Request processed successfully"
  const PayNow := "\U{1F4B3} Pay Now - Redirecting to secure payment..."
  const NoDoctors := "\U{1F4CB} No doctors found in the system. You can add doctors through the admin panel."
  const FoundDoctors := "\U{1F468}\U{200D}\U{2695}\U{FE0F} Found "
  const DoctorsShown := "doctors. Showing doctors page..."
  const NoAppointments := "\U{1F4C5} No appointments found. You can book a new appointment."
  const FoundAppointments := "\U{1F4C5} Found "
  const AppointmentsShown := "appointments. Showing appointments page..."
  const HereIsWhat := "Here's what I found:"
  const WillNavigate := "\n\n\U{1F517} Will navigate to: "

  /** The test of the `k`-th step of the format chain of `handleSendMessage`
      (steps 1 to 10), read off the reply object on its own. */
  predicate Selects(o: ReplyObject, k: nat)
  {
    match k
    case 1 => o.kind == Some(NavigationResponse) && o.navigation.Some?
    case 2 => o.kind == Some(MessageResponse)
    case 3 => Truthy(o.response)
    case 4 => Truthy(o.page)
    case 5 => Truthy(o.response)
    case 6 => o.doctors != Absent
    case 7 => o.appointments != Absent
    case 8 => o.kind == Some(PaymentRedirect)
    case 9 => o.kind == Some(MessageResponse)
    case 10 => Truthy(o.navigate_to)
    case _ => false
  }

  /** The first step from `k` on whose test holds, or 0 when none does. */
  function FirstTestFrom(o: ReplyObject, k: nat): (r: nat)
    requires 1 <= k
    ensures r == 0 || (k <= r <= 10 && Selects(o, r))
    ensures r == 0 <==> forall j :: k <= j <= 10 ==> !Selects(o, j)
    ensures r != 0 ==> forall j :: k <= j < r ==> !Selects(o, j)
    decreases 11 - k
  {
    if k > 10 then 0
    else if Selects(o, k) then k
    else FirstTestFrom(o, k + 1)
  }

  /** The step of the chain whose test holds first, 0 when none holds. */
  function FirstTest(o: ReplyObject): (r: nat)
    ensures r <= 10
    ensures r == 0 <==> forall j :: 1 <= j <= 10 ==> !Selects(o, j)
    ensures r != 0 ==> Selects(o, r) && forall j :: 1 <= j < r ==> !Selects(o, j)
  {
    FirstTestFrom(o, 1)
  }

  /** The first five tests of the format chain of `handleSendMessage`:
      navigation response, message response, `response`, `page`, and a second
      `response` test, which the third test makes unreachable. */
  function HeadForm(o: ReplyObject): (r: Option<Dispatched>)
    ensures r.Some? <==>
      (o.kind == Some(NavigationResponse) && o.navigation.Some?) || o.kind == Some(MessageResponse) ||
      Truthy(o.response) || Truthy(o.page)
    ensures r.Some? ==> 1 <= r.value.branch <= 4
    ensures o.kind == Some(NavigationResponse) && o.navigation.Some? ==> r.Some? && r.value.branch == 1
    ensures r.Some? <==> 1 <= FirstTest(o) <= 4
    ensures r.Some? ==> r.value.branch == FirstTest(o)
  {
    assert Selects(o, 1) || Selects(o, 2) || Selects(o, 3) || Selects(o, 4) ==> 1 <= FirstTest(o) <= 4;
    if o.kind == Some(NavigationResponse) && o.navigation.Some? then
      Some(Dispatched(OrElse(o.message, "Processing your request..."),
                      Navigate(o.navigation.value.path, DelayOr(o.navigation.value.delay_ms, 500)), 1))
    else if o.kind == Some(MessageResponse) then
      Some(Dispatched(OrElse(o.message, Processed), NoEffect, 2))
    else if Truthy(o.response) then
      Some(ResponseForm(o.response.value, 3))
    else if Truthy(o.page) then
      Some(Dispatched(Check + "Navigating to " + o.page.value + "...", Navigate(Some(PageTarget(PagePages, o.page.value)), 500), 4))
    else if Truthy(o.response) then
      assert false; None
    else None
  }

  /** The rest of the chain, reached when none of the first five tests holds:
      `doctors`, `appointments`, payment redirect, a second message-response
      test, which the second test makes unreachable, and the legacy
      `navigate_to`; otherwise the raw text. */
  function TailForm(raw: string, o: ReplyObject): (r: Dispatched)
    requires o.kind != Some(MessageResponse)
    ensures r.branch in {0, 6, 7, 8, 10}
    ensures r.branch == 0 ==> r.text == raw && r.effect == NoEffect
    ensures var k := FirstTest(o);
      !(1 <= k <= 4) ==>
        r.branch == if (k == 6 && o.doctors.NullList?) || (k == 7 && o.appointments.NullList?) then 0 else k
  {
    var fallback := Dispatched(raw, NoEffect, 0);
    if o.doctors != Absent then
      ListForm(o.doctors, raw, NoDoctors, FoundDoctors, DoctorsShown, "/doctors", 6)
    else if o.appointments != Absent then
      ListForm(o.appointments, raw, NoAppointments, FoundAppointments, AppointmentsShown, "/appointments", 7)
    else if o.kind == Some(PaymentRedirect) then
      Dispatched(OrElse(o.message, PayNow), OpenPayment(o.payment_url, 1000), 8)
    else if o.kind == Some(MessageResponse) then
      assert false; fallback
    else if Truthy(o.navigate_to) then
      Dispatched(OrElse(o.message, OrElse(o.reply, HereIsWhat)) + WillNavigate + o.navigate_to.value,
                 Navigate(o.navigate_to, 500), 10)
    else fallback
  }

  /** The format chain of `handleSendMessage`. The local `navigationData` is
      never set, so the legacy navigation block after the chain never starts a
      timer. */
  function SendDispatch(raw: string, parsed: ParsedReply): (d: Dispatched)
    ensures parsed.NotObject? ==> d == Dispatched(raw, NoEffect, 0)
    ensures d.branch == 0 ==> d.text == raw && d.effect == NoEffect
    ensures d.branch != 5 && d.branch != 9
  {
    if parsed.NotObject? then Dispatched(raw, NoEffect, 0)
    else
      var head := HeadForm(parsed.obj);
      if head.Some? then head.value else TailForm(raw, parsed.obj)
  }

  /** The chain takes the first step whose test holds, except that a `null`
      doctors or appointments list throws and leaves the raw text; steps 5 and
      9 are never first. */
  lemma SendDispatchChain(raw: string, o: ReplyObject)
    ensures var k := FirstTest(o);
      SendDispatch(raw, Parsed(o)).branch ==
        if (k == 6 && o.doctors.NullList?) || (k == 7 && o.appointments.NullList?) then 0 else k
    ensures FirstTest(o) != 5 && FirstTest(o) != 9
  {
    assert Selects(o, 3) == Selects(o, 5) && Selects(o, 2) == Selects(o, 9);
  }

  /** A reply with a navigation response follows it whatever else it holds, and
      every router push of the `response` and `page` formats goes to an absolute
      path. */
  lemma SendDispatchOrder(raw: string, o: ReplyObject)
    ensures o.kind == Some(NavigationResponse) && o.navigation.Some? ==> SendDispatch(raw, Parsed(o)).branch == 1
    ensures var d := SendDispatch(raw, Parsed(o));
      (d.branch == 3 || d.branch == 4) && d.effect.Navigate? ==>
        d.effect.path.Some? && d.effect.path.value != [] && d.effect.path.value[0] == '/'
  {
    var d := SendDispatch(raw, Parsed(o));
    if d.branch == 3 && d.effect.Navigate? {
      ResponseBranch(raw, o);
      PageTargetsAbsolute(Lower(RedirectMatch(o.response.value, 0).value));
    } else if d.branch == 4 {
      PageBranch(raw, o);
      PageTargetsAbsolute(o.page.value);
    }
  }

  /** Only the `response` format is taken as branch 3. */
  lemma ResponseBranch(raw: string, o: ReplyObject)
    requires SendDispatch(raw, Parsed(o)).branch == 3
    ensures Truthy(o.response) && SendDispatch(raw, Parsed(o)) == ResponseForm(o.response.value, 3)
  {
    assert HeadForm(o).Some?;
  }

  /** Only the `page` format is taken as branch 4. */
  lemma PageBranch(raw: string, o: ReplyObject)
    requires SendDispatch(raw, Parsed(o)).branch == 4
    ensures Truthy(o.page) && SendDispatch(raw, Parsed(o)).effect == Navigate(Some(PageTarget(PagePages, o.page.value)), 500)
  {
    assert HeadForm(o).Some?;
  }

  /** The format chain of `handleSuggestionClick`: navigation response, payment
      redirect, message response. Only a navigation response whose navigation
      has action "navigate" and a path starts a router push, after `delay_ms` or
      1.5 seconds. */
  function SuggestionDispatch(raw: string, parsed: ParsedReply): (d: Dispatched)
    ensures parsed.NotObject? ==> d == Dispatched(raw, NoEffect, 0)
    ensures d.effect.Navigate? <==>
      parsed.Parsed? && parsed.obj.kind == Some(NavigationResponse) && parsed.obj.navigation.Some? &&
      parsed.obj.navigation.value.action == Some("navigate") && Truthy(parsed.obj.navigation.value.path)
    ensures d.effect.Navigate? ==> d.effect.delayMs == DelayOr(parsed.obj.navigation.value.delay_ms, 1500)
  {
    if parsed.NotObject? then Dispatched(raw, NoEffect, 0)
    else
      var o := parsed.obj;
      if o.kind == Some(NavigationResponse) then
        var nav := o.navigation;
        var effect :=
          if nav.Some? && nav.value.action == Some("navigate") && Truthy(nav.value.path) then
            Navigate(nav.value.path, DelayOr(nav.value.delay_ms, 1500))
          else NoEffect;
        Dispatched(OrElse(o.message, "Navigating..."), effect, 1)
      else if o.kind == Some(PaymentRedirect) then
        Dispatched(OrElse(o.message, PayNow), OpenPayment(o.payment_url, 1000), 2)
      else if o.kind == Some(MessageResponse) then
        Dispatched(OrElse(o.message, Processed), NoEffect, 3)
      else Dispatched(raw, NoEffect, 0)
  }

  // ---------------------------------------------------------------------------
  // The widget
  // ---------------------------------------------------------------------------

  /** How `chatbotApi.sendMessage` ended. */
  datatype SendOutcome = Resolved(response: ApiResponse<ChatReply>) | Threw

  const LoginNotice := "Please login to use the AI assistant. The chatbot requires authentication to provide personalized assistance."
  const ReplyFailed := "Sorry, I encountered an error. Please try again."
  const ContactSupport := "Sorry, I encountered an error. Please try again or contact support."

  /** What `handleSendMessage` answers for an outcome. */
  function SendAnswer(outcome: SendOutcome): (d: Dispatched)
    ensures outcome.Threw? ==> d.text == ContactSupport && d.effect == NoEffect
    ensures outcome.Resolved? && !(outcome.response.success && outcome.response.data.Some?) ==>
      d.text == OrElse(outcome.response.error, ReplyFailed) && d.effect == NoEffect
  {
    match outcome
    case Threw => Dispatched(ContactSupport, NoEffect, 0)
    case Resolved(response) =>
      if response.success && response.data.Some? then SendDispatch(response.data.value.raw, response.data.value.parsed)
      else Dispatched(OrElse(response.error, ReplyFailed), NoEffect, 0)
  }

  /** What `handleSuggestionClick` answers for an outcome. It tests only
      `success`: a successful response without data throws on `data.reply`,
      which gives the contact-support text. */
  function SuggestionAnswer(outcome: SendOutcome): (d: Dispatched)
    ensures outcome.Threw? ==> d.text == ContactSupport && d.effect == NoEffect
    ensures outcome.Resolved? && outcome.response.success && outcome.response.data.None? ==>
      d.text == ContactSupport && d.effect == NoEffect
    ensures outcome.Resolved? && !outcome.response.success ==>
      d.text == OrElse(outcome.response.error, ReplyFailed) && d.effect == NoEffect
  {
    match outcome
    case Threw => Dispatched(ContactSupport, NoEffect, 0)
    case Resolved(response) =>
      if !response.success then Dispatched(OrElse(response.error, ReplyFailed), NoEffect, 0)
      else if response.data.None? then Dispatched(ContactSupport, NoEffect, 0)
      else SuggestionDispatch(response.data.value.raw, response.data.value.parsed)
  }

  /** `Date.now()` and `new Date().toISOString()` at one moment. */
  datatype Stamp = Stamp(ms: nat, iso: string)

  function BotMessage(text: string, at: Stamp): ChatMessage
  {
    ChatMessage(NatToString(at.ms + 1), text, BotSender, at.iso)
  }

  function UserMessage(text: string, at: Stamp): ChatMessage
  {
    ChatMessage(NatToString(at.ms), text, UserSender, at.iso)
  }

  class Widget {
    var isOpen: bool
    var messages: seq<ChatMessage>
    var inputMessage: string
    var isLoading: bool

    constructor ()
      ensures !isOpen && messages == [] && inputMessage == "" && !isLoading
    {
      isOpen := false;
      messages := [];
      inputMessage := "";
      isLoading := false;
    }

    /** The effect run when the user changes, and the timer after a clear: the
        transcript becomes the welcome message alone. */
    method ShowWelcome(user: Option<User>, at: Stamp)
      modifies this`messages
      ensures messages == [ChatMessage("1", WelcomeText(user), BotSender, at.iso)]
    {
      messages := [ChatMessage("1", WelcomeText(user), BotSender, at.iso)];
    }

    /** `clearChat`, before its timer: the transcript is emptied and the widget
        closed. */
    method ClearChat()
      modifies this`messages, this`isOpen
      ensures messages == [] && !isOpen
    {
      messages := [];
      isOpen := false;
    }

    /** `handleSendMessage`. A blank input or a request in flight does nothing;
        otherwise the trimmed input goes to `Deliver`. */
    method HandleSendMessage(user: Option<User>, outcome: SendOutcome, sentAt: Stamp, repliedAt: Stamp)
      returns (sent: Option<string>, effect: Effect)
      modifies this`messages, this`inputMessage, this`isLoading
      ensures Trim(old(inputMessage)) == "" || old(isLoading) ==>
        sent.None? && effect == NoEffect && messages == old(messages) && inputMessage == old(inputMessage) && isLoading == old(isLoading)
      ensures Trim(old(inputMessage)) != "" && !old(isLoading) && user.None? ==>
        sent.None? && effect == NoEffect && messages == old(messages) + [BotMessage(LoginNotice, sentAt)] &&
        inputMessage == old(inputMessage) && !isLoading
      ensures Trim(old(inputMessage)) != "" && !old(isLoading) && user.Some? ==>
        sent == Some(Trim(old(inputMessage))) && effect == SendAnswer(outcome).effect &&
        messages == old(messages) + [UserMessage(Trim(old(inputMessage)), sentAt), BotMessage(SendAnswer(outcome).text, repliedAt)] &&
        inputMessage == "" && !isLoading
    {
      var text := Trim(inputMessage);
      if text == "" || isLoading {
        return None, NoEffect;
      }
      sent, effect := Deliver(text, user, outcome, sentAt, repliedAt);
    }

    /** The non-blank `text` without a request in flight: without a user, one bot
        message asks to sign in and nothing is sent; otherwise `text` is sent and
        appended as the user's message, the input is cleared, and the answer is
        appended as the bot's message; `effect` is the timer the answer starts. */
    method Deliver(text: string, user: Option<User>, outcome: SendOutcome, sentAt: Stamp, repliedAt: Stamp)
      returns (sent: Option<string>, effect: Effect)
      modifies this`messages, this`inputMessage, this`isLoading
      ensures user.None? ==>
        sent.None? && effect == NoEffect && messages == old(messages) + [BotMessage(LoginNotice, sentAt)] &&
        inputMessage == old(inputMessage) && isLoading == old(isLoading)
      ensures user.Some? ==>
        sent == Some(text) && effect == SendAnswer(outcome).effect &&
        messages == old(messages) + [UserMessage(text, sentAt), BotMessage(SendAnswer(outcome).text, repliedAt)] &&
        inputMessage == "" && !isLoading
    {
      if user.None? {
        messages := messages + [BotMessage(LoginNotice, sentAt)];
        return None, NoEffect;
      }
      var before := messages;
      var mine := UserMessage(text, sentAt);
      messages := messages + [mine];
      inputMessage := "";
      isLoading := true;
      var answer := SendAnswer(outcome);
      var reply := BotMessage(answer.text, repliedAt);
      messages := messages + [reply];
      assert messages == before + [mine, reply];
      isLoading := false;
      return Some(text), answer.effect;
    }

    /** `handleSuggestionClick`. Only a request in flight stops it: the suggestion
        is appended and sent as it is, signed in or not. */
    method HandleSuggestionClick(suggestion: string, outcome: SendOutcome, sentAt: Stamp, repliedAt: Stamp)
      returns (sent: Option<string>, effect: Effect)
      modifies this`messages, this`inputMessage, this`isLoading
      ensures old(isLoading) ==>
        sent.None? && effect == NoEffect && messages == old(messages) && inputMessage == old(inputMessage) && isLoading
      ensures !old(isLoading) ==>
        sent == Some(suggestion) && effect == SuggestionAnswer(outcome).effect &&
        messages == old(messages) + [UserMessage(suggestion, sentAt), BotMessage(SuggestionAnswer(outcome).text, repliedAt)] &&
        inputMessage == "" && !isLoading
    {
      if isLoading {
        return None, NoEffect;
      }
      messages := messages + [UserMessage(suggestion, sentAt)];
      inputMessage := "";
      isLoading := true;
      var answer := SuggestionAnswer(outcome);
      messages := messages + [BotMessage(answer.text, repliedAt)];
      isLoading := false;
      return Some(suggestion), answer.effect;
    }
  }

}
