/** The candidate profile view: a fetch cycle per `candidateId` guarded by
    that cycle's `isMounted` flag, votes and the refresh after a new
    statement, the pro/con form toggle, the image error flag and the choice
    of what to render. Network completions are explicit events; the data
    they carry is a parameter. */
module CandidateProfile {
  import opened Common
  import opened ImageUrl
  import opened Statements

  const LoadErrorMessage: string := "Failed to load data. Please try again later."

  /** What the view renders, in the order the tests are made. */
  datatype Branch = Loading | ErrorOnly | NotFound | Profile(errorBanner: bool)

  /** Loading wins over everything; an error is shown on its own only when
      there is no candidate; with no candidate and no error the view says
      "not found"; otherwise the profile is shown, with the error as a
      banner when there is one. */
  function SelectBranch(isLoading: bool, error: string, candidate: Option<Candidate>): (b: Branch)
    ensures b == Loading <==> isLoading
    ensures b == ErrorOnly <==> !isLoading && error != "" && candidate.None?
    ensures b == NotFound <==> !isLoading && error == "" && candidate.None?
    ensures b.Profile? <==> !isLoading && candidate.Some?
    ensures b.Profile? ==> (b.errorBanner <==> error != "")
  {
    if isLoading then Loading
    else if error != "" && candidate.None? then ErrorOnly
    else if candidate.None? then NotFound
    else Profile(error != "")
  }

  datatype VoteType = LikeDislike | TrueFalse

  /** The body of `POST /api/procons/{id}/vote/`. */
  datatype Vote = Vote(proconId: nat, voteType: VoteType, value: bool)

  /** How a vote ends: the post fails, the refresh after it fails, or the
      refresh returns the server's current statement list. */
  datatype VoteOutcome = VoteRejected | RefreshRejected | Refreshed(items: seq<Statement>)

  class View {
    /** The route parameter. */
    var candidateId: string
    var candidate: Option<Candidate>
    var pros: seq<Statement>
    var cons: seq<Statement>
    var showProConForm: bool
    var isLoading: bool
    var error: string
    var imageError: bool
    /** The `isMounted` local of every fetch cycle, oldest first; the
        effect's cleanup clears the latest one. */
    var isMounted: seq<bool>
    /** The last server statement list the view applied. */
    ghost var snapshot: seq<Statement>
    /** Every vote posted, in order. */
    ghost var votes: seq<Vote>

    /** At most the latest cycle may still write state, and `pros` and
        `cons` always come from one and the same server list. */
    ghost predicate Valid()
      reads this
    {
      && |isMounted| > 0
      && (forall c :: 0 <= c < |isMounted| - 1 ==> !isMounted[c])
      && pros == FilterByType(snapshot, Pro)
      && cons == FilterByType(snapshot, Con)
    }

    function Branch(): (b: Branch)
      reads this
    {
      SelectBranch(isLoading, error, candidate)
    }

    /** The `src` of the profile image; it is rendered only with a
        candidate. */
    function ImageSrc(): (r: string)
      reads this
      requires candidate.Some?
      ensures imageError ==> r == DefaultImageUrl
      ensures !imageError ==> r == ResolveImageUrl(candidate.value.profileImage)
    {
      ProfileImageUrl(candidate.value.profileImage, imageError)
    }

    /** Mounting with a route parameter runs the first fetch cycle. */
    constructor (candidateId: string)
      ensures Valid()
      ensures this.candidateId == candidateId && isMounted == [true]
      ensures candidate == None && pros == [] && cons == [] && error == ""
      ensures isLoading && !showProConForm && !imageError && votes == []
    {
      this.candidateId := candidateId;
      candidate := None;
      pros, cons := [], [];
      showProConForm := false;
      isLoading := true;
      error := "";
      imageError := false;
      isMounted := [true];
      snapshot := [];
      votes := [];
    }

    /** A new route parameter: the previous cycle's cleanup clears its flag
        and a new cycle starts loading. Nothing else is reset. The same
        value does not re-run the effect. */
    method ChangeCandidate(newId: string)
      requires Valid()
      modifies this
      ensures Valid()
      ensures newId == old(candidateId) ==> unchanged(this)
      ensures newId != old(candidateId) ==>
        && candidateId == newId && isLoading
        && |isMounted| == |old(isMounted)| + 1 && isMounted[|isMounted| - 1]
        && (forall c :: 0 <= c < |isMounted| - 1 ==> !isMounted[c])
        && candidate == old(candidate) && pros == old(pros) && cons == old(cons)
        && error == old(error) && imageError == old(imageError)
        && showProConForm == old(showProConForm) && votes == old(votes)
    {
      if newId != candidateId {
        isMounted := isMounted[|isMounted| - 1 := false] + [true];
        candidateId := newId;
        isLoading := true;
      }
    }

    /** Unmounting runs the cleanup of the live cycle. */
    method Unmount()
      requires Valid()
      modifies this`isMounted
      ensures Valid()
      ensures |isMounted| == |old(isMounted)| && forall c :: 0 <= c < |isMounted| ==> !isMounted[c]
      ensures candidate == old(candidate) && pros == old(pros) && cons == old(cons)
      ensures isLoading == old(isLoading) && error == old(error)
    {
      isMounted := isMounted[|isMounted| - 1 := false];
    }

    /** Both requests of cycle `c` succeeded. The results are written only
        while that cycle's flag is set; a late completion changes nothing. */
    method Resolve(c: nat, data: Candidate, items: seq<Statement>)
      requires Valid() && c < |isMounted|
      modifies this
      ensures Valid()
      ensures old(isMounted[c]) ==>
        && candidate == Some(data) && !isLoading
        && pros == FilterByType(items, Pro) && cons == FilterByType(items, Con)
        && error == old(error) && isMounted == old(isMounted)
        && showProConForm == old(showProConForm) && imageError == old(imageError)
        && candidateId == old(candidateId) && votes == old(votes)
        && Branch() == Profile(error != "")
      ensures !old(isMounted[c]) ==> unchanged(this)
    {
      if isMounted[c] {
        candidate := Some(data);
        snapshot := items;
        pros := FilterByType(items, Pro);
        cons := FilterByType(items, Con);
        isLoading := false;
      }
    }

    /** A request of cycle `c` failed. While the flag is set, the error is
        recorded and loading ends; the candidate and the lists keep what an
        earlier cycle put there. */
    method Reject(c: nat)
      requires Valid() && c < |isMounted|
      modifies this
      ensures Valid()
      ensures old(isMounted[c]) ==>
        && error == LoadErrorMessage && !isLoading
        && candidate == old(candidate) && pros == old(pros) && cons == old(cons)
        && isMounted == old(isMounted) && showProConForm == old(showProConForm)
        && imageError == old(imageError) && candidateId == old(candidateId)
        && votes == old(votes)
        && Branch() == (if candidate.None? then ErrorOnly else Profile(true))
      ensures !old(isMounted[c]) ==> unchanged(this)
    {
      if isMounted[c] {
        error := LoadErrorMessage;
        isLoading := false;
      }
    }

    /** `handleVote`: the vote is posted; no counter changes locally. Only
        a successful refresh after a successful post replaces the lists,
        wholesale, by the server's; the refresh is not tied to a cycle. */
    method HandleVote(v: Vote, outcome: VoteOutcome)
      requires Valid()
      modifies this
      ensures Valid()
      ensures votes == old(votes) + [v]
      ensures outcome.Refreshed? ==>
        pros == FilterByType(outcome.items, Pro) && cons == FilterByType(outcome.items, Con)
      ensures !outcome.Refreshed? ==> pros == old(pros) && cons == old(cons)
      ensures candidate == old(candidate) && isLoading == old(isLoading) && error == old(error)
      ensures showProConForm == old(showProConForm) && imageError == old(imageError)
      ensures isMounted == old(isMounted) && candidateId == old(candidateId)
    {
      votes := votes + [v];
      if outcome.Refreshed? {
        snapshot := outcome.items;
        pros := FilterByType(outcome.items, Pro);
        cons := FilterByType(outcome.items, Con);
      }
    }

    /** `handleProConSubmitted`: the statement list is fetched again; on
        success the lists are replaced and the form is closed, on failure
        nothing changes. */
    method HandleProConSubmitted(refresh: Option<seq<Statement>>)
      requires Valid()
      modifies this
      ensures Valid()
      ensures refresh.Some? ==>
        && pros == FilterByType(refresh.value, Pro) && cons == FilterByType(refresh.value, Con)
        && !showProConForm
        && candidate == old(candidate) && isLoading == old(isLoading) && error == old(error)
        && imageError == old(imageError) && isMounted == old(isMounted)
        && candidateId == old(candidateId) && votes == old(votes)
      ensures refresh.None? ==> unchanged(this)
    {
      if refresh.Some? {
        snapshot := refresh.value;
        pros := FilterByType(refresh.value, Pro);
        cons := FilterByType(refresh.value, Con);
        showProConForm := false;
      }
    }

    method ToggleProConForm()
      requires Valid()
      modifies this`showProConForm
      ensures Valid()
      ensures showProConForm == !old(showProConForm)
    {
      showProConForm := !showProConForm;
    }

    /** The image's `onError` handler. The flag is never cleared again, so
        every later image URL is the default one and the fallback is applied
        at most once. */
    method OnImageError()
      requires Valid()
      modifies this`imageError
      ensures Valid()
      ensures imageError
      ensures forall raw :: ProfileImageUrl(raw, imageError) == DefaultImageUrl
    {
      imageError := true;
    }
  }
}
