/** The form that suggests a politician for a seat. On mount it loads the
    seat list for its select. A submit without a CAPTCHA token is refused
    before any request; with one, the fields are posted; success resets the
    form, failure records a message. The CAPTCHA widget's token is an
    input; completions are explicit events. */
module SuggestionForm {
  import opened Common

  const CaptchaMessage: string := "Please complete the CAPTCHA"
  const PendingMessage: string := "Your suggestion has been received and is pending approval."
  const SeatsLoadError: string := "Failed to load seats. Please refresh the page."
  /** The fallback when the error response has a body without `detail`;
      the text is the one the form shows, letters "JIT" included. */
  const BodyFallbackError: string := "An error occurred. Please try againJIT."
  /** The fallback when there is no response body at all. */
  const FallbackError: string := "An error occurred. Please try again."

  /** The three inputs, named as their `name` attributes are. */
  datatype Field = NameField | SeatField | ReasonField

  /** `formData`; `seat` is the selected seat id as the select reports it. */
  datatype Draft = Draft(name: string, seat: string, reason: string)

  const EmptyDraft: Draft := Draft("", "", "")

  /** `handleChange`: the named field takes the new value, the other two
      keep theirs. */
  function WithField(d: Draft, f: Field, v: string): (r: Draft)
    ensures f == NameField ==> r.name == v && r.seat == d.seat && r.reason == d.reason
    ensures f == SeatField ==> r.seat == v && r.name == d.name && r.reason == d.reason
    ensures f == ReasonField ==> r.reason == v && r.name == d.name && r.seat == d.seat
  {
    match f
    case NameField => d.(name := v)
    case SeatField => d.(seat := v)
    case ReasonField => d.(reason := v)
  }

  /** The browser's check of the `required` inputs, made before the submit
      event reaches the handler: the name must not be empty and a seat must
      be chosen (the placeholder option has the empty value). The reason is
      optional. */
  predicate RequiredFilled(d: Draft) {
    d.name != "" && d.seat != ""
  }

  /** The body of `POST /api/suggestions/`. */
  datatype Post = Post(name: string, seat: string, reason: string, captcha: string)

  /** The message a failed post shows: the server's `detail` when a
      response body carries a non-empty one; otherwise one fallback when
      there was a body and another when there was none. Never empty. */
  function FailureMessage(e: RequestError): (m: string)
    ensures m != ""
    ensures e.Response? && e.data.Some? && Truthy(e.data.value.detail) ==> m == e.data.value.detail.value
    ensures e.Response? && e.data.Some? && !Truthy(e.data.value.detail) ==> m == BodyFallbackError
    ensures !(e.Response? && e.data.Some?) ==> m == FallbackError
  {
    match e
    case Response(Some(body)) => if Truthy(body.detail) then body.detail.value else BodyFallbackError
    case _ => FallbackError
  }

  class Form {
    var seats: seq<Seat>
    var formData: Draft
    var captchaValue: Option<string>
    var message: string
    var error: string
    var isLoading: bool
    /** Whether the mount-time seat request is still outstanding. */
    ghost var seatsPending: bool
    /** Every suggestion posted, in order. */
    ghost var posts: seq<Post>
    /** Whether the latest post is still outstanding. */
    ghost var inFlight: bool
    /** Posts that succeeded and posts that failed. */
    ghost var accepted: nat
    ghost var rejected: nat

    /** Loading exactly while the seat request or a post is outstanding,
        never both; no seats before the seat request is answered; every
        post carries a token and is answered at most once; the
        pending-approval message appears with the first success and
        stays. */
    ghost predicate Valid()
      reads this
    {
      && (isLoading <==> seatsPending || inFlight)
      && !(seatsPending && inFlight)
      && (seatsPending ==> seats == [])
      && (forall i :: 0 <= i < |posts| ==> posts[i].captcha != "")
      && accepted + rejected + (if inFlight then 1 else 0) == |posts|
      && (accepted == 0 ==> message == "")
      && (accepted > 0 ==> message == PendingMessage)
    }

    /** Mounting: empty fields, no token, and the seat list is requested,
        so the form is loading. */
    constructor ()
      ensures Valid()
      ensures seats == [] && formData == EmptyDraft && captchaValue == None
      ensures message == "" && error == "" && isLoading && seatsPending
      ensures posts == [] && accepted == 0
    {
      seats := [];
      formData := EmptyDraft;
      captchaValue := None;
      message := "";
      error := "";
      isLoading := true;
      seatsPending := true;
      posts := [];
      inFlight := false;
      accepted, rejected := 0, 0;
    }

    /** The seat list arrived: it fills the select and loading ends. */
    method SeatsResolved(data: seq<Seat>)
      requires Valid() && seatsPending
      modifies this
      ensures Valid()
      ensures seats == data && !isLoading && !seatsPending
      ensures error == old(error) && formData == old(formData) && message == old(message)
      ensures captchaValue == old(captchaValue)
      ensures posts == old(posts) && accepted == old(accepted) && rejected == old(rejected)
    {
      seats := data;
      isLoading := false;
      seatsPending := false;
    }

    /** The seat request failed: the select stays empty, the error is set
        and loading ends. */
    method SeatsRejected()
      requires Valid() && seatsPending
      modifies this
      ensures Valid()
      ensures seats == [] && error == SeatsLoadError && !isLoading && !seatsPending
      ensures formData == old(formData) && message == old(message)
      ensures captchaValue == old(captchaValue)
      ensures posts == old(posts) && accepted == old(accepted) && rejected == old(rejected)
    {
      error := SeatsLoadError;
      isLoading := false;
      seatsPending := false;
    }

    method HandleChange(f: Field, v: string)
      requires Valid()
      modifies this`formData
      ensures Valid()
      ensures formData == WithField(old(formData), f, v)
    {
      formData := WithField(formData, f, v);
    }

    /** The widget reports a new token, or null when it expires. */
    method HandleCaptchaChange(token: Option<string>)
      requires Valid()
      modifies this`captchaValue
      ensures Valid()
      ensures captchaValue == token
    {
      captchaValue := token;
    }

    /** Submitting the form. The submit button is disabled while loading,
        so this only happens when not loading. While a required input is
        empty the browser blocks the submit event and nothing changes.
        Otherwise `handleSubmit` runs: without a token only the error
        changes and no request is issued; with one, the error is cleared,
        loading starts, and the fields are posted with the token. The
        message is never cleared here. */
    method HandleSubmit() returns (issued: bool)
      requires Valid() && !isLoading
      modifies this
      ensures Valid()
      ensures issued <==> RequiredFilled(old(formData)) && Truthy(old(captchaValue))
      ensures !RequiredFilled(old(formData)) ==> unchanged(this)
      ensures formData == old(formData) && captchaValue == old(captchaValue) && message == old(message)
      ensures RequiredFilled(old(formData)) && !issued ==>
        error == CaptchaMessage && posts == old(posts) && !isLoading
      ensures issued ==>
        && isLoading && error == ""
        && posts == old(posts) + [Post(formData.name, formData.seat, formData.reason, captchaValue.value)]
      ensures seats == old(seats) && accepted == old(accepted) && rejected == old(rejected)
    {
      if !RequiredFilled(formData) {
        issued := false;
        return;
      }
      if !Truthy(captchaValue) {
        error := CaptchaMessage;
        issued := false;
        return;
      }
      isLoading := true;
      error := "";
      posts := posts + [Post(formData.name, formData.seat, formData.reason, captchaValue.value)];
      inFlight := true;
      issued := true;
    }

    /** The post succeeded: the pending-approval message shows, the three
        fields and the token are reset, and loading ends. */
    method OnSubmitResolved()
      requires Valid() && inFlight
      modifies this
      ensures Valid()
      ensures message == PendingMessage && formData == EmptyDraft && captchaValue == None
      ensures !isLoading && error == old(error) && seats == old(seats) && posts == old(posts)
      ensures accepted == old(accepted) + 1 && rejected == old(rejected)
    {
      message := PendingMessage;
      formData := EmptyDraft;
      captchaValue := None;
      isLoading := false;
      inFlight := false;
      accepted := accepted + 1;
    }

    /** The post failed: the error shows the server's detail or a fallback,
        loading ends, and the fields, the token and the message are kept. */
    method OnSubmitRejected(e: RequestError)
      requires Valid() && inFlight
      modifies this
      ensures Valid()
      ensures error == FailureMessage(e) && !isLoading
      ensures formData == old(formData) && captchaValue == old(captchaValue) && message == old(message)
      ensures seats == old(seats) && posts == old(posts)
      ensures accepted == old(accepted) && rejected == old(rejected) + 1
    {
      error := FailureMessage(e);
      isLoading := false;
      inFlight := false;
      rejected := rejected + 1;
    }
  }
}
