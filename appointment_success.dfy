/** The page the checkout returns to after a booking is paid: it fetches the
    appointment booked under the checkout session and shows it. */
module AppointmentSuccess {
  import opened Wrappers
  import opened Text
  import ApiClient

  /** The appointment details the payments endpoint returns for a session. */
  datatype Details = Details(
    id: string,
    doctor_name: string,
    doctor_specialty: string,
    date: string,
    time: string,
    fee: int,
    status: string)

  /** How the details request ended: a response (`response.ok` and its JSON) or a throw. */
  datatype DetailsReply = Fetched(ok: bool, data: Details) | FetchFailed

  const NoSessionId := "No session ID provided"
  const FetchDetailsFailed := "Failed to fetch appointment details"
  const FetchDetailsError := "An error occurred while fetching appointment details"
  const LoginPath := "/login"

  /** The storage key this page reads its token from. */
  const TokenKey := "token"

  /** `localStorage.getItem('token')`. */
  function StoredToken(storage: map<string, string>): (t: Option<string>)
    ensures t.Some? <==> TokenKey in storage
    ensures t.Some? ==> t.value == storage[TokenKey]
  {
    if TokenKey in storage then Some(storage[TokenKey]) else None
  }

  /** The sign-in flow stores its token under "auth_token" and the user under
      "auth_user", never under "token": a storage holding only those entries
      gives this page no token, so it sends a signed-in user to the login page. */
  lemma SignedInStorageHasNoToken(storage: map<string, string>)
    requires storage.Keys <= {ApiClient.AuthTokenKey, ApiClient.AuthUserKey}
    ensures !Truthy(StoredToken(storage))
  {
    assert TokenKey != ApiClient.AuthTokenKey && TokenKey != ApiClient.AuthUserKey;
  }

  /** The path the details are fetched from. */
  function SessionPath(sessionId: string): (p: string)
    ensures |p| == 18 + |sessionId| && p[18..] == sessionId
  {
    "/payments/session/" + sessionId
  }

  /** The card below the header: the details, or a note naming the session. */
  datatype Body = DetailsBody(details: Details) | PendingBody(sessionLine: string)

  datatype View = LoadingView | ErrorView(message: string) | ContentView(header: string, body: Body)

  /** The page's render: loading first, then the error, then the content, whose
      header always announces success. */
  function PageView(loading: bool, error: string, details: Option<Details>, sessionId: Option<string>): (v: View)
    ensures loading <==> v == LoadingView
    ensures v.ErrorView? <==> !loading && error != ""
    ensures v.ErrorView? ==> v.message == error
    ensures v.ContentView? ==> v.header == "Payment Successful!"
    ensures v.ContentView? ==> (v.body.DetailsBody? <==> details.Some?)
    ensures v.ContentView? && details.Some? ==> v.body.details == details.value
    ensures v.ContentView? && details.None? ==> v.body.sessionLine == "Session ID: " + sessionId.GetOr("")
  {
    if loading then LoadingView
    else if error != "" then ErrorView(error)
    else
      ContentView("Payment Successful!",
        if details.Some? then DetailsBody(details.value)
        else PendingBody("Session ID: " + sessionId.GetOr("")))
  }

  class Page {
    var loading: bool
    var error: string
    var details: Option<Details>
    /** Where `router.push` sent the browser, if anywhere. */
    var redirect: Option<string>

    constructor ()
      ensures loading && error == "" && details.None? && redirect.None?
    {
      loading := true;
      error := "";
      details := None;
      redirect := None;
    }

    function View(sessionId: Option<string>): View
      reads this
    {
      PageView(loading, error, details, sessionId)
    }

    /** The effect on load, given the browser's local storage. `fetched` is the
        path requested, if any: no session id and no token under "token" each
        mean no request. */
    method OnLoad(sessionId: Option<string>, storage: map<string, string>, reply: DetailsReply) returns (fetched: Option<string>)
      modifies this`loading, this`error, this`details, this`redirect
      ensures !loading
      ensures !Truthy(sessionId) ==> fetched.None? && error == NoSessionId && details == old(details) && redirect == old(redirect)
      ensures Truthy(sessionId) && !Truthy(StoredToken(storage)) ==>
        fetched.None? && redirect == Some(LoginPath) && error == old(error) && details == old(details)
      ensures Truthy(sessionId) && Truthy(StoredToken(storage)) ==>
        fetched == Some(SessionPath(sessionId.value)) && redirect == old(redirect)
      ensures Truthy(sessionId) && Truthy(StoredToken(storage)) && reply.Fetched? && reply.ok ==>
        details == Some(reply.data) && error == old(error)
      ensures Truthy(sessionId) && Truthy(StoredToken(storage)) && reply.Fetched? && !reply.ok ==>
        error == FetchDetailsFailed && details == old(details)
      ensures Truthy(sessionId) && Truthy(StoredToken(storage)) && reply.FetchFailed? ==>
        error == FetchDetailsError && details == old(details)
    {
      if !Truthy(sessionId) {
        error := NoSessionId;
        loading := false;
        return None;
      }
      fetched := FetchAppointmentDetails(sessionId.value, StoredToken(storage), reply);
    }

    /** `fetchAppointmentDetails`, whose `finally` clears loading on every path,
        the redirect to the login page included. */
    method FetchAppointmentDetails(sessionId: string, token: Option<string>, reply: DetailsReply) returns (fetched: Option<string>)
      modifies this`loading, this`error, this`details, this`redirect
      ensures !loading
      ensures !Truthy(token) ==> fetched.None? && redirect == Some(LoginPath) && error == old(error) && details == old(details)
      ensures Truthy(token) ==> fetched == Some(SessionPath(sessionId)) && redirect == old(redirect)
      ensures Truthy(token) && reply.Fetched? && reply.ok ==> details == Some(reply.data) && error == old(error)
      ensures Truthy(token) && reply.Fetched? && !reply.ok ==> error == FetchDetailsFailed && details == old(details)
      ensures Truthy(token) && reply.FetchFailed? ==> error == FetchDetailsError && details == old(details)
    {
      if !Truthy(token) {
        redirect := Some(LoginPath);
        loading := false;
        return None;
      }
      fetched := Some(SessionPath(sessionId));
      match reply {
        case Fetched(ok, data) =>
          if ok {
            details := Some(data);
          } else {
            error := FetchDetailsFailed;
          }
        case FetchFailed =>
          error := FetchDetailsError;
      }
      loading := false;
    }
  }

  /** From the initial state, a session without a stored token ends with the
      redirect to the login page while the page, no longer loading and with no
      error, renders the success header over the session note. */
  lemma RedirectRendersSuccess(sessionId: string)
    requires sessionId != ""
    ensures PageView(false, "", None, Some(sessionId)) == ContentView("Payment Successful!", PendingBody("Session ID: " + sessionId))
  {
  }

  /** From the initial state, the success header with details shows exactly when
      a session and a token were present and the fetch answered ok. */
  lemma DetailsShownIff(sessionId: Option<string>, token: Option<string>, reply: DetailsReply, error: string, details: Option<Details>)
    requires !Truthy(sessionId) ==> error == NoSessionId && details.None?
    requires Truthy(sessionId) && !Truthy(token) ==> error == "" && details.None?
    requires Truthy(sessionId) && Truthy(token) && reply.Fetched? && reply.ok ==> details == Some(reply.data) && error == ""
    requires Truthy(sessionId) && Truthy(token) && reply.Fetched? && !reply.ok ==> error == FetchDetailsFailed && details.None?
    requires Truthy(sessionId) && Truthy(token) && reply.FetchFailed? ==> error == FetchDetailsError && details.None?
    ensures var v := PageView(false, error, details, sessionId);
      (v.ContentView? && v.body.DetailsBody?) <==>
      (Truthy(sessionId) && Truthy(token) && reply.Fetched? && reply.ok)
  {
  }
}
