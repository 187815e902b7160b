/** Short event sequences across the views, checked from the components'
    contracts alone. */
module Scenarios {
  import opened Common
  import Home
  import CandidateList
  import CandidateProfile
  import ProConForm

  /** Seat 1 is listed and clicked; its candidate list arrives empty; the
      list shows the "no candidates" message, not the error view. */
  method SeatWithNoCandidates() {
    var home := new Home.View();
    home.SeatsResolved([Seat(1, "Nairobi")]);
    home.HandleSeatClick(1);
    assert Home.DecimalString(1) == "1";
    assert Home.SeatPath(1) == "/seats/1";
    assert home.navigations == ["/seats/1"];

    var list := new CandidateList.View("1");
    list.SeatResolved(0, "Nairobi");
    list.CandidatesResolved(0, []);
    assert list.Branch() == CandidateList.NoCandidates;
  }

  /** A successful submission consumes the token and clears the content:
      submitting the empty form again is blocked by the browser, and once
      new content is typed, a submit without a new token is refused with
      the CAPTCHA message. Either way no second request is issued. */
  method ResubmitWithoutNewToken() {
    var form := new ProConForm.Form("7", true);
    form.HandleChange(ProConForm.ContentField, "Built roads");
    form.HandleCaptchaChange(Some("token"));
    var first := form.HandleSubmit();
    assert first && |form.posts| == 1;
    form.OnSubmitResolved();
    var second := form.HandleSubmit();
    assert !second && |form.posts| == 1 && form.error == "";
    form.HandleChange(ProConForm.ContentField, "Fixed the clinic");
    var third := form.HandleSubmit();
    assert !third && |form.posts| == 1 && form.error == ProConForm.CaptchaMessage;
    assert form.message == ProConForm.PendingMessage;
  }

  /** The route moves from candidate 7 to candidate 8 before 7's data
      arrives; the late response for 7 is dropped and the view keeps
      loading candidate 8. */
  method StaleProfileResponse(seven: Candidate) {
    var view := new CandidateProfile.View("7");
    view.ChangeCandidate("8");
    view.Resolve(0, seven, []);
    assert view.candidate == None && view.isLoading;
    assert view.Branch() == CandidateProfile.Loading;
  }
}
