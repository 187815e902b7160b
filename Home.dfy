/** The home view: the seat list is fetched once on mount, and clicking a
    seat navigates to `/seats/<id>`. The network completion is an explicit
    event; navigation is recorded in a log. */
module Home {
  import opened Common

  const LoadErrorMessage: string :=
    "Oops! We couldn\U{2019}t load the seats. Please try refreshing the page."
  const SeatsPrefix: string := "/seats/"

  predicate IsDigit(ch: char) {
    '0' <= ch <= '9'
  }

  function DigitChar(d: nat): (ch: char)
    requires d < 10
    ensures IsDigit(ch) && ch as int - '0' as int == d
  {
    ('0' as int + d) as char
  }

  /** The decimal text of a number, as a template string renders it. */
  function DecimalString(n: nat): (s: string)
    ensures s != [] && forall i :: 0 <= i < |s| ==> IsDigit(s[i])
    decreases n
  {
    if n < 10 then [DigitChar(n)] else DecimalString(n / 10) + [DigitChar(n % 10)]
  }

  /** The number a string of decimal digits denotes. */
  function DecimalValue(s: string): (n: nat)
    requires forall i :: 0 <= i < |s| ==> IsDigit(s[i])
  {
    if s == [] then 0
    else
      assert IsDigit(s[|s| - 1]);
      DecimalValue(s[..|s| - 1]) * 10 + (s[|s| - 1] as int - '0' as int)
  }

  /** Reading back the decimal text of a number gives that number. */
  lemma {:induction false} DecimalRoundTrip(n: nat)
    ensures DecimalValue(DecimalString(n)) == n
    decreases n
  {
    var s := DecimalString(n);
    if n >= 10 {
      DecimalRoundTrip(n / 10);
      assert s[..|s| - 1] == DecimalString(n / 10);
    }
  }

  /** The path `handleSeatClick` navigates to. */
  function SeatPath(id: nat): (p: string)
    ensures |p| > |SeatsPrefix| && p[..|SeatsPrefix|] == SeatsPrefix
    ensures forall i :: |SeatsPrefix| <= i < |p| ==> IsDigit(p[i])
  {
    SeatsPrefix + DecimalString(id)
  }

  /** The path is the prefix followed by exactly the seat's decimal id, one
      path segment with no further '/', and different seats give different
      paths. */
  lemma SeatPathIdentifiesSeat(a: nat, b: nat)
    ensures SeatPath(a)[|SeatsPrefix|..] == DecimalString(a)
    ensures '/' !in SeatPath(a)[|SeatsPrefix|..]
    ensures SeatPath(a) == SeatPath(b) <==> a == b
  {
    assert SeatPath(a)[|SeatsPrefix|..] == DecimalString(a);
    assert SeatPath(b)[|SeatsPrefix|..] == DecimalString(b);
    if SeatPath(a) == SeatPath(b) {
      DecimalRoundTrip(a);
      DecimalRoundTrip(b);
    }
  }

  /** A path into the seats section: the prefix followed by something. */
  predicate IsSeatPath(p: string) {
    |p| > |SeatsPrefix| && p[..|SeatsPrefix|] == SeatsPrefix
  }

  /** What the home view shows below its header. */
  datatype Main = Spinner | NoSeats | SeatGrid

  /** The error banner and the main section are chosen independently. */
  datatype Screen = Screen(errorBanner: bool, main: Main)

  /** The banner shows whenever there is an error; the main section shows
      the spinner while loading, otherwise the "no seats" message for an
      empty list and the grid for a non-empty one. */
  function Render(isLoading: bool, error: string, seats: seq<Seat>): (s: Screen)
    ensures s.errorBanner <==> error != ""
    ensures s.main == Spinner <==> isLoading
    ensures s.main == NoSeats <==> !isLoading && seats == []
    ensures s.main == SeatGrid <==> !isLoading && seats != []
  {
    Screen(error != "",
           if isLoading then Spinner else if |seats| == 0 then NoSeats else SeatGrid)
  }

  class View {
    var seats: seq<Seat>
    var isLoading: bool
    var error: string
    /** Whether the single seat request is still outstanding. */
    ghost var pending: bool
    /** Every path navigated to, in order. */
    ghost var navigations: seq<string>

    ghost predicate Valid()
      reads this
    {
      && (pending ==> isLoading && seats == [] && error == "")
      && (!pending ==> !isLoading)
      && (forall i :: 0 <= i < |navigations| ==> IsSeatPath(navigations[i]))
    }

    function Shown(): (s: Screen)
      reads this
    {
      Render(isLoading, error, seats)
    }

    /** Mounting: nothing loaded yet, loading, and the seat list requested. */
    constructor ()
      ensures Valid()
      ensures isLoading && seats == [] && error == "" && pending && navigations == []
      ensures Shown() == Screen(false, Spinner)
    {
      seats := [];
      isLoading := true;
      error := "";
      pending := true;
      navigations := [];
    }

    /** The seat list arrived: it replaces `seats` and loading ends. */
    method SeatsResolved(data: seq<Seat>)
      requires Valid() && pending
      modifies this
      ensures Valid()
      ensures seats == data && !isLoading && error == "" && !pending
      ensures navigations == old(navigations)
    {
      seats := data;
      isLoading := false;
      pending := false;
    }

    /** The seat request failed: the fixed message is set, loading ends and
        `seats` stays empty, so both the banner and the "no seats" message
        show. */
    method SeatsRejected()
      requires Valid() && pending
      modifies this
      ensures Valid()
      ensures error == LoadErrorMessage && !isLoading && seats == [] && !pending
      ensures navigations == old(navigations)
      ensures Shown() == Screen(true, NoSeats)
    {
      error := LoadErrorMessage;
      isLoading := false;
      pending := false;
    }

    /** `handleSeatClick`: navigate to the seat's candidate list. */
    method HandleSeatClick(id: nat)
      requires Valid()
      modifies this`navigations
      ensures Valid()
      ensures navigations == old(navigations) + [SeatPath(id)]
    {
      navigations := navigations + [SeatPath(id)];
    }
  }
}
