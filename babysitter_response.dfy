// The babysitter's response page of src/pages/BabysitterResponse.tsx: a
// babysitter opens "/r/<requestId>", proves who they are with a mobile
// number, sees the request and accepts or declines it. The two backend
// calls are outside the model: their outcomes are parameters.

module BabysitterResponse {
  import opened Wrappers

  datatype Parent = Parent(firstName: string, lastName: string)

  /** A babysitting request as the verification call returns it. The id may
      be absent or empty; `notes` and `parent` are optional. */
  datatype Request = Request(
    id: Option<string>,
    babysitterFirstName: string,
    date: string,
    timeRange: string,
    notes: Option<string>,
    parent: Option<Parent>)

  /** `request?.id` is truthy: a request is loaded and its id is a
      non-empty string. No request, no id and the empty id are all falsy. */
  predicate HasId(request: Option<Request>)
    ensures request.None? ==> !HasId(request)
    ensures request.Some? && request.value.id.None? ==> !HasId(request)
    ensures request.Some? && request.value.id == Some("") ==> !HasId(request)
  {
    request.Some? && request.value.id.Some? && request.value.id.value != ""
  }

  /** The body of the update call. */
  datatype Update = Update(status: string, response: string)

  /** What `mutationFn` does: reject without calling the backend, or call
      the update with the request's id and a payload. */
  datatype Submission = Rejected(reason: string) | UpdateCall(requestId: string, payload: Update)

  /** Toasts, with their kind and exact text. */
  datatype Toast = SuccessToast(message: string) | ErrorToast(message: string)

  const YesSentence := "Yes, I can babysit then"
  const NoSentence := "No, I am not available then"

  /** Only the exact answer "yes" accepts. */
  function Status(response: string): (s: string)
    ensures s == "Available" || s == "Declined"
    ensures s == "Available" <==> response == "yes"
  {
    if response == "yes" then "Available" else "Declined"
  }

  /** The sentence for the answer, then ". " and the comments when there
      are any. */
  function ResponseText(response: string, comments: string): (t: string)
    ensures (response == "yes" ==> YesSentence <= t) && (response != "yes" ==> NoSentence <= t)
    ensures comments == "" ==> t == YesSentence || t == NoSentence
    ensures comments != "" ==> |t| > |comments| + 2 && t[|t| - |comments| - 2..] == ". " + comments
  {
    (if response == "yes" then YesSentence else NoSentence)
      + (if comments != "" then ". " + comments else "")
  }

  /** Reads a response text back: whether it accepts, and the comments. */
  function ReadResponse(text: string): (bool, string) {
    var accepted := YesSentence <= text;
    var sentence := if accepted then |YesSentence| else |NoSentence|;
    (accepted, if |text| > sentence + 2 then text[sentence + 2..] else "")
  }

  /** The response text loses nothing: the answer and the comments can be
      read back from it. */
  lemma ResponseTextRoundTrip(response: string, comments: string)
    ensures ReadResponse(ResponseText(response, comments)) == (response == "yes", comments)
  {
    var t := ResponseText(response, comments);
    var sentence := if response == "yes" then YesSentence else NoSentence;
    assert t[..|sentence|] == sentence;
    if response != "yes" {
      assert !(YesSentence <= t) by {
        assert t[0] == 'N';
      }
    }
    if comments != "" {
      assert t[|sentence| + 2..] == comments;
    }
  }

  /** `mutationFn`: without a loaded request that has an id, reject with
      "Invalid data" and make no call; otherwise send the status and the
      response text for that id. */
  function BuildSubmission(request: Option<Request>, response: string, comments: string): (s: Submission)
    ensures s.Rejected? <==> !HasId(request)
    ensures s.Rejected? ==> s.reason == "Invalid data"
    ensures s.UpdateCall? ==> s.requestId == request.value.id.value
    ensures s.UpdateCall? ==> s.payload == Update(Status(response), ResponseText(response, comments))
  {
    if !HasId(request) then Rejected("Invalid data")
    else UpdateCall(request.value.id.value, Update(Status(response), ResponseText(response, comments)))
  }

  /** Whatever is sent carries the babysitter's answer: its status is
      "Available" exactly for the answer "yes", its text reads back as that
      same answer, and the comments come back out of it. */
  lemma PayloadIsConsistent(request: Option<Request>, response: string, comments: string)
    requires HasId(request)
    ensures var s := BuildSubmission(request, response, comments);
      && s.UpdateCall?
      && (s.payload.status == "Available" <==> response == "yes")
      && ReadResponse(s.payload.response) == (response == "yes", comments)
  {
    ResponseTextRoundTrip(response, comments);
  }

  /** Two concrete payloads: accepting with a comment, and declining
      without one. */
  lemma PayloadExamples(r: Request)
    requires r.id == Some("rec1")
    ensures BuildSubmission(Some(r), "yes", "bring snacks")
      == UpdateCall("rec1", Update("Available", "Yes, I can babysit then. bring snacks"))
    ensures BuildSubmission(Some(r), "no", "")
      == UpdateCall("rec1", Update("Declined", "No, I am not available then"))
  {
    assert ResponseText("yes", "bring snacks") == YesSentence + (". " + "bring snacks");
    assert YesSentence + (". " + "bring snacks") == "Yes, I can babysit then. bring snacks";
    assert ResponseText("no", "") == NoSentence;
  }

  // ---------------------------------------------------------------------
  // What is rendered

  datatype Screen = Loading | SuccessMessage(parent: Parent) | VerificationForm | Details(request: Request)

  /** The render branches, in the source's order. */
  function SelectScreen(isVerifying: bool, isSubmitted: bool, request: Option<Request>): (s: Screen)
    ensures s == Loading <==> isVerifying
    ensures s.SuccessMessage? ==> isSubmitted && request.Some? && request.value.parent == Some(s.parent)
    ensures s.Details? ==> request == Some(s.request)
  {
    if isVerifying then Loading
    else if isSubmitted && request.Some? && request.value.parent.Some? then SuccessMessage(request.value.parent.value)
    else if request.None? then VerificationForm
    else Details(request.value)
  }

  /** Which screen shows when: loading while verifying and nothing else;
      the success message once submitted for a request with a parent; the
      form while no request is loaded; the details otherwise, which
      includes a submitted request without a parent. */
  lemma ScreenSelection(isVerifying: bool, isSubmitted: bool, request: Option<Request>)
    ensures var s := SelectScreen(isVerifying, isSubmitted, request);
      && (s == Loading <==> isVerifying)
      && (s.SuccessMessage? <==> !isVerifying && isSubmitted && request.Some? && request.value.parent.Some?)
      && (s.SuccessMessage? ==> Some(s.parent) == request.value.parent)
      && (s == VerificationForm <==> !isVerifying && request.None?)
      && (s.Details? <==> !isVerifying && request.Some? && !(isSubmitted && request.value.parent.Some?))
      && (s.Details? ==> request == Some(s.request))
  {
  }

  // ---------------------------------------------------------------------
  // The component's state

  /** What the verification call can do. */
  datatype VerifyOutcome = Found(request: Request) | NotFound | Threw

  /** What the update call can do. */
  datatype UpdateOutcome = UpdateOk | UpdateFailed

  /** The state of one mounted response page. */
  class ResponderFlow {
    const requestId: string
    var isVerifying: bool
    var isSubmitted: bool
    var request: Option<Request>
    var toasts: seq<Toast>

    /** A submitted response always belongs to a request with an id, and
        a verification only runs while no request is loaded. */
    ghost predicate Valid()
      reads this
    {
      && (isSubmitted ==> HasId(request))
      && (isVerifying ==> request.None? && !isSubmitted)
    }

    function CurrentScreen(): Screen
      reads this
    {
      SelectScreen(isVerifying, isSubmitted, request)
    }

    /** The page mounts for the URL parameter (`requestId || ""`), with
        nothing loaded. */
    constructor (routeParameter: Option<string>)
      ensures Valid()
      ensures requestId == if routeParameter.Some? then routeParameter.value else ""
      ensures !isVerifying && !isSubmitted && request.None? && toasts == []
      ensures CurrentScreen() == VerificationForm
    {
      requestId := if routeParameter.Some? then routeParameter.value else "";
      isVerifying := false;
      isSubmitted := false;
      request := None;
      toasts := [];
    }

    /** `handleVerify` up to its call: the form, the only place it is
        reachable from, gives way to the loading screen, and the call is
        made with the page's request id and `handleVerify`'s mobile argument
        unchanged. */
    method StartVerify(mobile: string) returns (callId: string, callMobile: string)
      requires Valid() && CurrentScreen() == VerificationForm
      modifies this`isVerifying
      ensures Valid() && isVerifying && CurrentScreen() == Loading
      ensures callId == requestId && callMobile == mobile
    {
      isVerifying := true;
      callId, callMobile := requestId, mobile;
    }

    /** `handleVerify` after its call: a found request is stored; no request
        or a thrown error leaves it as it was and shows an error. In every
        case verification is over. */
    method CompleteVerify(outcome: VerifyOutcome)
      requires Valid() && isVerifying
      modifies this`isVerifying, this`request, this`toasts
      ensures Valid() && !isVerifying
      ensures request == if outcome.Found? then Some(outcome.request) else old(request)
      ensures toasts == old(toasts) + match outcome {
        case Found(_) => []
        case NotFound => [ErrorToast("Could not find that babysitting request")]
        case Threw => [ErrorToast("Invalid mobile number format")]
      }
      ensures CurrentScreen() == if outcome.Found? then Details(outcome.request) else VerificationForm
    {
      match outcome {
        case Found(r) =>
          request := Some(r);
        case NotFound =>
          toasts := toasts + [ErrorToast("Could not find that babysitting request")];
        case Threw =>
          toasts := toasts + [ErrorToast("Invalid mobile number format")];
      }
      isVerifying := false;
    }

    /** `handleSubmit` through the mutation, reachable only from the response
        form on the details screen: the submission is built from the loaded
        request; a rejection or a failed update shows an error and changes
        nothing else; a successful update marks the page submitted, which
        brings the success message when the request names a parent. */
    method Submit(response: string, comments: string, outcome: UpdateOutcome) returns (sent: Submission)
      requires Valid() && CurrentScreen().Details?
      modifies this`isSubmitted, this`toasts
      ensures Valid()
      ensures sent == BuildSubmission(old(request), response, comments)
      ensures isSubmitted == (old(isSubmitted) || (sent.UpdateCall? && outcome == UpdateOk))
      ensures toasts == old(toasts) + [
        if sent.UpdateCall? && outcome == UpdateOk then SuccessToast("Response submitted successfully!")
        else ErrorToast("Failed to submit response. Please try again.")]
      ensures CurrentScreen() ==
        if isSubmitted && old(CurrentScreen()).request.parent.Some?
        then SuccessMessage(old(CurrentScreen()).request.parent.value)
        else old(CurrentScreen())
    {
      sent := BuildSubmission(request, response, comments);
      if sent.UpdateCall? && outcome == UpdateOk {
        toasts := toasts + [SuccessToast("Response submitted successfully!")];
        isSubmitted := true;
      } else {
        toasts := toasts + [ErrorToast("Failed to submit response. Please try again.")];
      }
    }
  }

  /** The whole flow: verification finds the request, the babysitter
      accepts, the update succeeds, and the page thanks them showing the
      parent who asked. */
  method AcceptFlow(requestId: string, mobile: string, r: Request, comments: string)
    returns (sent: Submission, shown: Screen)
    requires r.id == Some(requestId) && requestId != "" && r.parent.Some?
    ensures sent == UpdateCall(requestId, Update("Available", ResponseText("yes", comments)))
    ensures shown == SuccessMessage(r.parent.value)
  {
    var page := new ResponderFlow(Some(requestId));
    var _, _ := page.StartVerify(mobile);
    page.CompleteVerify(Found(r));
    sent := page.Submit("yes", comments, UpdateOk);
    shown := page.CurrentScreen();
  }

  /** A number that matches no request: the form comes back with the
      "not found" error, and no response form is on screen to submit from. */
  method UnknownNumberFlow(requestId: string, mobile: string)
    returns (shown: Screen, errors: seq<Toast>)
    ensures shown == VerificationForm
    ensures errors == [ErrorToast("Could not find that babysitting request")]
  {
    var page := new ResponderFlow(Some(requestId));
    var _, _ := page.StartVerify(mobile);
    page.CompleteVerify(NotFound);
    shown, errors := page.CurrentScreen(), page.toasts;
  }

  /** A request that comes back without an id, or with an empty one: its
      details are shown, but a response to it is rejected with "Invalid
      data" before any call, and the page stays on the details. */
  method MissingIdFlow(requestId: string, mobile: string, r: Request, response: string, comments: string)
    returns (sent: Submission, shown: Screen, errors: seq<Toast>)
    requires r.id.None? || r.id == Some("")
    ensures sent == Rejected("Invalid data")
    ensures shown == Details(r)
    ensures errors == [ErrorToast("Failed to submit response. Please try again.")]
  {
    var page := new ResponderFlow(Some(requestId));
    var _, _ := page.StartVerify(mobile);
    page.CompleteVerify(Found(r));
    sent := page.Submit(response, comments, UpdateOk);
    shown, errors := page.CurrentScreen(), page.toasts;
  }
}
