/** The form that submits a new pro or con statement for a candidate. A
    submit without a CAPTCHA token is refused before any request; with one,
    the draft is posted; success resets the form and notifies the parent,
    failure records a message and keeps the draft. The CAPTCHA widget's
    token is an input; the post's completion is an explicit event. */
module ProConForm {
  import opened Common

  const CaptchaMessage: string := "Please complete the CAPTCHA"
  const PendingMessage: string := "Your submission has been received and is pending approval."
  const FallbackError: string := "An error occurred. Please try again."

  /** The two inputs, named as their `name` attributes are. */
  datatype Field = ContentField | TypeField

  /** `formData`; `kind` is the `type` select, "pro" or "con". */
  datatype Draft = Draft(content: string, kind: string)

  const InitialDraft: Draft := Draft("", "pro")

  /** `handleChange`: the named field takes the new value, the other keeps
      its own. */
  function WithField(d: Draft, f: Field, v: string): (r: Draft)
    ensures f == ContentField ==> r.content == v && r.kind == d.kind
    ensures f == TypeField ==> r.kind == v && r.content == d.content
  {
    match f
    case ContentField => d.(content := v)
    case TypeField => d.(kind := v)
  }

  /** The browser's check of the `required` inputs, made before the submit
      event reaches the handler: the content must not be empty. The type
      select only offers "pro" and "con", so it is never empty in practice. */
  predicate RequiredFilled(d: Draft) {
    d.content != "" && d.kind != ""
  }

  /** The body of `POST /api/candidates/{id}/procons/`. */
  datatype Post = Post(content: string, kind: string, candidate: string, captcha: string)

  /** The message a failed post shows: the server's `detail` when the
      response carries a non-empty one, the fixed fallback otherwise. It is
      never empty, so a failure always shows an error. */
  function FailureMessage(e: RequestError): (m: string)
    ensures m != ""
    ensures e.Response? && e.data.Some? && Truthy(e.data.value.detail) ==> m == e.data.value.detail.value
    ensures !(e.Response? && e.data.Some? && Truthy(e.data.value.detail)) ==> m == FallbackError
  {
    match e
    case Response(Some(body)) => if Truthy(body.detail) then body.detail.value else FallbackError
    case _ => FallbackError
  }

  class Form {
    /** The `candidateId` prop. */
    const candidateId: string
    /** Whether an `onSubmitted` prop was passed. */
    const hasOnSubmitted: bool
    var formData: Draft
    var captchaValue: Option<string>
    var message: string
    var error: string
    var isLoading: bool
    /** Every post issued, in order. */
    ghost var posts: seq<Post>
    /** Whether the latest post is still outstanding. */
    ghost var inFlight: bool
    /** Posts that succeeded, posts that failed, and calls to `onSubmitted`. */
    ghost var accepted: nat
    ghost var rejected: nat
    ghost var notified: nat

    /** Loading exactly while a post is outstanding; every post carries a
        token and this candidate; every post is answered at most once; the
        pending-approval message appears with the first success and stays;
        the parent is notified once per success. */
    ghost predicate Valid()
      reads this
    {
      && (isLoading <==> inFlight)
      && (forall i :: 0 <= i < |posts| ==> posts[i].captcha != "" && posts[i].candidate == candidateId)
      && accepted + rejected + (if inFlight then 1 else 0) == |posts|
      && (accepted == 0 ==> message == "")
      && (accepted > 0 ==> message == PendingMessage)
      && notified == (if hasOnSubmitted then accepted else 0)
    }

    /** The initial state: empty content, type "pro", no token, no message
        or error, not loading. */
    constructor (candidateId: string, hasOnSubmitted: bool)
      ensures Valid()
      ensures this.candidateId == candidateId && this.hasOnSubmitted == hasOnSubmitted
      ensures formData == InitialDraft && captchaValue == None
      ensures message == "" && error == "" && !isLoading
      ensures posts == [] && accepted == 0 && notified == 0
    {
      this.candidateId := candidateId;
      this.hasOnSubmitted := hasOnSubmitted;
      formData := InitialDraft;
      captchaValue := None;
      message := "";
      error := "";
      isLoading := false;
      posts := [];
      inFlight := false;
      accepted, rejected, notified := 0, 0, 0;
    }

    method HandleChange(f: Field, v: string)
      requires Valid()
      modifies this`formData
      ensures Valid()
      ensures formData == WithField(old(formData), f, v)
    {
      formData := WithField(formData, f, v);
    }

    /** The widget reports a new token, or null when it expires. */
    method HandleCaptchaChange(token: Option<string>)
      requires Valid()
      modifies this`captchaValue
      ensures Valid()
      ensures captchaValue == token
    {
      captchaValue := token;
    }

    /** Submitting the form. The submit button is disabled while loading,
        so this only happens when not loading. While a required input is
        empty the browser blocks the submit event and nothing changes.
        Otherwise `handleSubmit` runs: without a token only the error
        changes and no request is issued; with one, loading starts and the
        error is cleared, then the draft is posted with this candidate and
        the token. */
    method HandleSubmit() returns (issued: bool)
      requires Valid() && !isLoading
      modifies this
      ensures Valid()
      ensures issued <==> RequiredFilled(old(formData)) && Truthy(old(captchaValue))
      ensures !RequiredFilled(old(formData)) ==> unchanged(this)
      ensures formData == old(formData) && captchaValue == old(captchaValue) && message == old(message)
      ensures RequiredFilled(old(formData)) && !issued ==>
        error == CaptchaMessage && posts == old(posts) && !isLoading
      ensures issued ==>
        && isLoading && error == ""
        && posts == old(posts) + [Post(formData.content, formData.kind, candidateId, captchaValue.value)]
      ensures accepted == old(accepted) && rejected == old(rejected) && notified == old(notified)
    {
      if !RequiredFilled(formData) {
        issued := false;
        return;
      }
      if !Truthy(captchaValue) {
        error := CaptchaMessage;
        issued := false;
        return;
      }
      isLoading := true;
      error := "";
      posts := posts + [Post(formData.content, formData.kind, candidateId, captchaValue.value)];
      inFlight := true;
      issued := true;
    }

    /** The post succeeded: the pending-approval message shows, the draft
        and the token are reset, the parent is notified if it asked to be,
        and loading ends. */
    method OnSubmitResolved()
      requires Valid() && inFlight
      modifies this
      ensures Valid()
      ensures message == PendingMessage && formData == InitialDraft && captchaValue == None
      ensures !isLoading && error == old(error) && posts == old(posts)
      ensures accepted == old(accepted) + 1 && rejected == old(rejected)
      ensures notified == old(notified) + (if hasOnSubmitted then 1 else 0)
    {
      message := PendingMessage;
      formData := InitialDraft;
      captchaValue := None;
      if hasOnSubmitted {
        notified := notified + 1;
      }
      isLoading := false;
      inFlight := false;
      accepted := accepted + 1;
    }

    /** The post failed: the error shows the server's detail or the
        fallback, loading ends, and the draft, the token and the message are
        kept. */
    method OnSubmitRejected(e: RequestError)
      requires Valid() && inFlight
      modifies this
      ensures Valid()
      ensures error == FailureMessage(e) && !isLoading
      ensures formData == old(formData) && captchaValue == old(captchaValue) && message == old(message)
      ensures posts == old(posts) && accepted == old(accepted) && rejected == old(rejected) + 1
      ensures notified == old(notified)
    {
      error := FailureMessage(e);
      isLoading := false;
      inFlight := false;
      rejected := rejected + 1;
    }
  }
}
