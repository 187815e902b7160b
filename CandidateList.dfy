/** The candidate list of one seat: each `seatId` starts a fetch that first
    asks for the seat, then, only once the seat arrived, for its
    candidates; `finally` ends loading on either outcome. No cycle guards
    its writes, so a late completion of an earlier cycle is applied too.
    Network completions are explicit events; the data they carry is a
    parameter. */
module CandidateList {
  import opened Common

  const LoadErrorMessage: string := "Failed to load candidates. Please try again later."

  /** Where a cycle's `fetchData` stands: waiting for the seat, waiting for
      the candidates, or finished (and whether the seat had arrived). */
  datatype Phase = AwaitingSeat | AwaitingCandidates | Finished(seatLoaded: bool)

  /** One run of the effect: the `seatId` its closure captured and its
      progress. */
  datatype Cycle = Cycle(seatId: string, phase: Phase)

  /** A GET request the view issued, tagged with its cycle. */
  datatype Get = SeatGet(cycle: nat, seatId: string) | CandidatesGet(cycle: nat, seatId: string)

  predicate SeatArrived(p: Phase) {
    p.AwaitingCandidates? || p == Finished(true)
  }

  /** What the view renders. */
  datatype Branch = Loading | ErrorView | NoCandidates | Grid

  /** Loading first, then the error, then content; content with an empty
      list is the "no candidates" message, never the error view. */
  function SelectBranch(loading: bool, error: Option<string>, candidates: seq<Candidate>): (b: Branch)
    ensures b == Loading <==> loading
    ensures b == ErrorView <==> !loading && error.Some?
    ensures b == NoCandidates <==> !loading && error.None? && candidates == []
    ensures b == Grid <==> !loading && error.None? && candidates != []
  {
    if loading then Loading
    else if error.Some? then ErrorView
    else if |candidates| == 0 then NoCandidates
    else Grid
  }

  class View {
    /** The route parameter. */
    var seatId: string
    var candidates: seq<Candidate>
    var seatName: string
    var loading: bool
    var error: Option<string>
    /** Every run of the effect, oldest first. */
    var cycles: seq<Cycle>
    /** Every request issued, in order. */
    ghost var requests: seq<Get>

    /** The latest cycle belongs to the current route parameter; every
        request names a cycle and that cycle's seat; a candidates request
        exists only for a cycle whose seat request succeeded. */
    ghost predicate Valid()
      reads this
    {
      && |cycles| > 0
      && cycles[|cycles| - 1].seatId == seatId
      && (forall i :: 0 <= i < |requests| ==>
            && requests[i].cycle < |cycles|
            && requests[i].seatId == cycles[requests[i].cycle].seatId)
      && (forall i :: 0 <= i < |requests| && requests[i].CandidatesGet? ==>
            SeatArrived(cycles[requests[i].cycle].phase))
      && (forall c :: 0 <= c < |cycles| ==> SeatGet(c, cycles[c].seatId) in requests)
    }

    function Branch(): (b: Branch)
      reads this
    {
      SelectBranch(loading, error, candidates)
    }

    /** Mounting runs the first cycle: loading, and the seat is requested. */
    constructor (seatId: string)
      ensures Valid()
      ensures this.seatId == seatId && cycles == [Cycle(seatId, AwaitingSeat)]
      ensures requests == [SeatGet(0, seatId)]
      ensures candidates == [] && seatName == "" && loading && error == None
    {
      this.seatId := seatId;
      candidates := [];
      seatName := "";
      loading := true;
      error := None;
      cycles := [Cycle(seatId, AwaitingSeat)];
      requests := [SeatGet(0, seatId)];
    }

    /** A new route parameter starts a new cycle: loading, and the new seat
        is requested. The earlier cycles go on; nothing else is reset. */
    method ChangeSeat(newId: string)
      requires Valid()
      modifies this
      ensures Valid()
      ensures newId == old(seatId) ==> unchanged(this)
      ensures newId != old(seatId) ==>
        && seatId == newId && loading
        && cycles == old(cycles) + [Cycle(newId, AwaitingSeat)]
        && requests == old(requests) + [SeatGet(|old(cycles)|, newId)]
        && candidates == old(candidates) && seatName == old(seatName) && error == old(error)
    {
      if newId != seatId {
        requests := requests + [SeatGet(|cycles|, newId)];
        cycles := cycles + [Cycle(newId, AwaitingSeat)];
        seatId := newId;
        loading := true;
      }
    }

    /** The seat of cycle `c` arrived: its name is shown and, only now, the
        candidates of that seat are requested. */
    method SeatResolved(c: nat, name: string)
      requires Valid() && c < |cycles| && cycles[c].phase == AwaitingSeat
      modifies this
      ensures Valid()
      ensures seatName == name
      ensures cycles == old(cycles)[c := Cycle(old(cycles[c].seatId), AwaitingCandidates)]
      ensures requests == old(requests) + [CandidatesGet(c, old(cycles[c].seatId))]
      ensures candidates == old(candidates) && loading == old(loading) && error == old(error)
      ensures seatId == old(seatId)
    {
      requests := requests + [CandidatesGet(c, cycles[c].seatId)];
      cycles := cycles[c := Cycle(cycles[c].seatId, AwaitingCandidates)];
      seatName := name;
    }

    /** The seat request of cycle `c` failed: the error is set, the
        candidates are never requested, and `finally` ends loading. */
    method SeatRejected(c: nat)
      requires Valid() && c < |cycles| && cycles[c].phase == AwaitingSeat
      modifies this
      ensures Valid()
      ensures error == Some(LoadErrorMessage) && !loading && Branch() == ErrorView
      ensures cycles == old(cycles)[c := Cycle(old(cycles[c].seatId), Finished(false))]
      ensures requests == old(requests)
      ensures candidates == old(candidates) && seatName == old(seatName) && seatId == old(seatId)
    {
      cycles := cycles[c := Cycle(cycles[c].seatId, Finished(false))];
      error := Some(LoadErrorMessage);
      loading := false;
    }

    /** The candidates of cycle `c` arrived and `finally` ends loading. An
        empty list shows the "no candidates" message unless an error is
        still set. */
    method CandidatesResolved(c: nat, list: seq<Candidate>)
      requires Valid() && c < |cycles| && cycles[c].phase == AwaitingCandidates
      modifies this
      ensures Valid()
      ensures candidates == list && !loading
      ensures error == old(error) && seatName == old(seatName) && seatId == old(seatId)
      ensures cycles == old(cycles)[c := Cycle(old(cycles[c].seatId), Finished(true))]
      ensures requests == old(requests)
      ensures old(error).None? ==> Branch() == (if list == [] then NoCandidates else Grid)
    {
      cycles := cycles[c := Cycle(cycles[c].seatId, Finished(true))];
      candidates := list;
      loading := false;
    }

    /** The candidates request of cycle `c` failed after the seat name was
        already set; the error is set and `finally` ends loading, and the
        error view hides the partly updated state. */
    method CandidatesRejected(c: nat)
      requires Valid() && c < |cycles| && cycles[c].phase == AwaitingCandidates
      modifies this
      ensures Valid()
      ensures error == Some(LoadErrorMessage) && !loading && Branch() == ErrorView
      ensures seatName == old(seatName) && candidates == old(candidates) && seatId == old(seatId)
      ensures cycles == old(cycles)[c := Cycle(old(cycles[c].seatId), Finished(true))]
      ensures requests == old(requests)
    {
      cycles := cycles[c := Cycle(cycles[c].seatId, Finished(true))];
      error := Some(LoadErrorMessage);
      loading := false;
    }
  }
}
