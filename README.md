# Kenya Voice front end: a Dafny model of its view logic

Kenya Voice is a small React front end. Visitors browse electoral seats,
open a seat's candidates and read a candidate's pro/con statements. They can
vote on statements, submit new ones and suggest politicians. Every view
fetches JSON from a REST API and renders it. The two forms post user input,
gated by a CAPTCHA token.

This project models the logic of the five views. The markup and CSS are not
modelled; only the choice of what each view renders is.

- `Common`: optional values, JavaScript truthiness of a string-or-null,
  the shape of a rejected request (no response, or a response whose `data`
  may hold a `detail`), and the Seat and Candidate records.
- `ImageUrl`: the two `getImageUrl` variants. Each one turns a profile
  image path into a URL: default image, pass-through of "http…" paths, or a
  join to the API origin.
- `Statements`: the `.filter` on `type` that splits the server's statement
  list into `pros` and `cons`.
- `CandidateProfile`, `CandidateList`, `Home`, `ProConForm`,
  `SuggestionForm`: one class per component. Its fields are the component's
  state. Each network completion is a method (`Resolve`, `Reject`,
  `SeatResolved`, `OnSubmitRejected`, …), and the data it carries is a
  parameter. Ghost logs record the requests issued and the paths navigated
  to. This lets "no post without a token" and "candidates only after the
  seat" be stated as class invariants.
- `Scenarios`: three short event sequences checked against those contracts:
  a seat with no candidates, a resubmit after success (first with the
  cleared content, then without a new token), and a stale profile response.

A fetch cycle is one run of a view's effect for one route parameter.
`CandidateProfile` keeps each cycle's `isMounted` flag as a sequence, one
flag per cycle. Cleanup clears the latest flag, and a completion writes
state only while its own cycle's flag is set. `CandidateList` has no such
guard. Its per-cycle record holds the `seatId` its closure captured and how
far `fetchData` has got.

The submit methods of both forms require `!isLoading`. The submit button
and every input are `disabled={isLoading}` (ProConForm.js lines 85, 102
and 117; SuggestionForm.js lines 102, 114, 134 and 149), so a submit cannot
start while a request is outstanding. The same markup marks inputs
`required` (ProConForm.js lines 84 and 99; SuggestionForm.js lines 100 and
113). The browser blocks the submit event while one of them is empty, so
`handleSubmit` does not run at all: `HandleSubmit` models that check
(`RequiredFilled`) as a submit that changes nothing.

Where the code and the design intent differ, the model follows the code:

- A view is meant to show its error state after a failed load, never
  partial content. In `CandidateProfile`, a failed cycle keeps the
  candidate and lists that an earlier cycle loaded. The view then shows
  that earlier profile with the error as a banner (`View.Reject`). Neither
  `CandidateProfile` nor `CandidateList` clears `error` when a new cycle
  starts. After one failure, a later success still shows the banner
  (profile) or the error view (list).
- A superseded fetch is meant to be ignored. Only `CandidateProfile`'s
  fetch does that. A late completion in `CandidateList` is applied, and so
  is the statement refresh after a vote or a submission in
  `CandidateProfile`.
- `imageError` is never reset. Once one image has failed, every later
  profile shown by the same view uses the default image.
- The suggestion form's fallback for an error body without `detail` is the
  source's own text, "An error occurred. Please try againJIT.".

## Model

| member | source | states |
|---|---|---|
| `ImageUrl.OriginJoin` | src/components/CandidateList.js:38 | the origin is a prefix and the path a suffix; the character after the origin is '/'; a separator is added exactly when the path lacks a leading '/' |
| `ImageUrl.ResolveImageUrl` | src/components/CandidateList.js:35-39 | a missing or empty path gives the default image; a path starting with "http" is returned unchanged; any other path gives `OriginJoin` of it, the origin joined to the path with exactly one '/'; the result always starts with "http" |
| `ImageUrl.ProfileImageUrl` | src/components/CandidateProfile.js:81-85 | a set image error flag always gives the default image; with the flag clear, the result is the same as the list's variant |
| `ImageUrl.ResolveIsFixpoint` | src/components/CandidateList.js:35-39 | resolving an already resolved URL changes nothing; in particular the default image resolves to itself |
| `ImageUrl.ResolveExamples` | src/components/CandidateProfile.js:82-84 | null and "" both give the default; "http://x/y" is kept; "/media/a.png" gives origin + "/media/a.png", the same as "media/a.png" |
| `Statements.FilterByType` | src/components/CandidateProfile.js:31-32 | the filtered list is never longer than the response |
| `Statements.FilterKeepsExactlyType` | src/components/CandidateProfile.js:31-32 | the filter keeps exactly the items of the type, each as often as in the response (multiset), in response order (a subsequence) |
| `Statements.SplitByType` | src/components/CandidateProfile.js:59-60 | a statement is in `pros` iff it is in the response with type "pro", and in `cons` iff its type is "con"; other types are in neither |
| `Statements.SplitIsComplete` | src/components/CandidateProfile.js:70-71 | when every item is a pro or a con, `pros` and `cons` together are as long as the response |
| `CandidateProfile.SelectBranch` | src/components/CandidateProfile.js:87-101 | loading wins; the error is shown alone only when there is no candidate; no candidate and no error is "not found"; a candidate gives the profile, with a banner iff there is an error |
| `CandidateProfile.View.ImageSrc` | src/components/CandidateProfile.js:104-112 | with the error flag set, the profile image is the default; otherwise it is the candidate's resolved image |
| `CandidateProfile.View.constructor` | src/components/CandidateProfile.js:10-22 | initial state: no candidate, empty lists, no error, form closed, loading, one live cycle |
| `CandidateProfile.View.ChangeCandidate` | src/components/CandidateProfile.js:20-49 | a new id clears the previous cycle's flag, starts a live cycle and sets loading, and leaves candidate, lists and error alone; the same id changes nothing |
| `CandidateProfile.View.Unmount` | src/components/CandidateProfile.js:46-48 | cleanup leaves every cycle's flag cleared; no other field may change |
| `CandidateProfile.View.Resolve` | src/components/CandidateProfile.js:24-34 | with the cycle's flag set: candidate set, lists split from the response, loading off, profile shown; with it cleared: no state changes |
| `CandidateProfile.View.Reject` | src/components/CandidateProfile.js:35-41 | with the cycle's flag set: error set, loading off, candidate and lists untouched, error view only when there is no candidate; with it cleared: no state changes |
| `CandidateProfile.View.HandleVote` | src/components/CandidateProfile.js:51-65 | the vote is logged; only a successful refresh replaces the lists, wholesale, with the server's split; otherwise the lists are unchanged; nothing else changes |
| `CandidateProfile.View.HandleProConSubmitted` | src/components/CandidateProfile.js:67-75 | a successful refresh replaces the lists and closes the form; a failed one changes nothing |
| `CandidateProfile.View.ToggleProConForm` | src/components/CandidateProfile.js:77-79 | the form flag flips |
| `CandidateProfile.View.OnImageError` | src/components/CandidateProfile.js:108-112 | the flag is set, and every image URL computed from then on is the default |
| `CandidateList.SelectBranch` | src/components/CandidateList.js:41-78 | loading first, then the error, then content; an empty list without an error is the "no candidates" message, never the error view |
| `CandidateList.View.constructor` | src/components/CandidateList.js:6-20 | initial state: loading, no error, one cycle waiting for the seat, whose request is logged |
| `CandidateList.View.ChangeSeat` | src/components/CandidateList.js:16-33 | a new seat id starts a cycle, sets loading and logs the seat request, and resets nothing else; the same id changes nothing |
| `CandidateList.View.SeatResolved` | src/components/CandidateList.js:20-22 | the seat name is set, and only now is the candidates request for that cycle's seat logged |
| `CandidateList.View.SeatRejected` | src/components/CandidateList.js:19-30 | error set and loading off; no candidates request is issued; the error view is selected |
| `CandidateList.View.CandidatesResolved` | src/components/CandidateList.js:22-30 | candidates replaced and loading off; without an earlier error, an empty list selects "no candidates" |
| `CandidateList.View.CandidatesRejected` | src/components/CandidateList.js:21-30 | the seat name is already set, but the error is set and loading is off, so the error view hides the partial state |
| `Home.DecimalString` | src/components/Home.js:31 | a number's text is a non-empty run of decimal digits |
| `Home.DecimalRoundTrip` | src/components/Home.js:31 | reading back a number's decimal text gives the number |
| `Home.SeatPath` | src/components/Home.js:30-32 | the navigation target is "/seats/" followed by digits only |
| `Home.SeatPathIdentifiesSeat` | src/components/Home.js:30-32 | the segment after "/seats/" is exactly the id's text and holds no '/'; two seats give the same path iff they are the same seat |
| `Home.Render` | src/components/Home.js:48-75 | the banner shows iff there is an error; the spinner shows iff loading; otherwise an empty list gives "no seats" and a non-empty one the grid |
| `Home.View.constructor` | src/components/Home.js:10-16 | initial state: loading, no seats, no error, spinner shown |
| `Home.View.SeatsResolved` | src/components/Home.js:19-22 | seats replaced by the response, loading off |
| `Home.View.SeatsRejected` | src/components/Home.js:23-27 | the fixed message is set, loading is off and seats stay empty, so the banner and "no seats" show together |
| `Home.View.HandleSeatClick` | src/components/Home.js:30-32 | exactly the seat's path is appended to the navigation log |
| `ProConForm.WithField` | src/components/ProConForm.js:19-25 | the named field takes the value and the other field keeps its own |
| `ProConForm.FailureMessage` | src/components/ProConForm.js:62-69 | the server's non-empty `detail` when a body has one, otherwise the fallback; never empty |
| `ProConForm.Form.constructor` | src/components/ProConForm.js:9-17 | initial state: content "", type "pro", no token, no message, no error, not loading |
| `ProConForm.Form.HandleChange` | src/components/ProConForm.js:19-25 | only `formData` changes, as `WithField` says |
| `ProConForm.Form.HandleCaptchaChange` | src/components/ProConForm.js:27-29 | the token becomes the widget's value |
| `ProConForm.Form.HandleSubmit` | src/components/ProConForm.js:31-46 | a request is issued iff the content is non-empty and a token is present; empty content changes nothing (the browser's `required` check); without a token only the error changes; with one, loading is on, the error is cleared and the draft is posted with the candidate and the token; the invariant keeps every post tokened |
| `ProConForm.Form.OnSubmitResolved` | src/components/ProConForm.js:47-61 | pending-approval message, draft and token reset, parent notified iff it passed a callback, loading off |
| `ProConForm.Form.OnSubmitRejected` | src/components/ProConForm.js:62-69 | error from `FailureMessage`, loading off; draft, token and message kept |
| `SuggestionForm.WithField` | src/components/SuggestionForm.js:35-41 | the named field among name, seat and reason takes the value; the other two keep theirs |
| `SuggestionForm.FailureMessage` | src/components/SuggestionForm.js:75-82 | the server's non-empty `detail`; otherwise the "againJIT." text when a body came and the plain fallback when none did; never empty |
| `SuggestionForm.Form.constructor` | src/components/SuggestionForm.js:9-23 | initial state: empty fields, no token, no message or error, loading while the seats are requested |
| `SuggestionForm.Form.SeatsResolved` | src/components/SuggestionForm.js:24-27 | seats replaced by the response, loading off; fields, token, message, error and the post log kept |
| `SuggestionForm.Form.SeatsRejected` | src/components/SuggestionForm.js:28-32 | seats stay empty, the error is set, loading off; fields, token, message and the post log kept |
| `SuggestionForm.Form.HandleChange` | src/components/SuggestionForm.js:35-41 | only `formData` changes, as `WithField` says |
| `SuggestionForm.Form.HandleCaptchaChange` | src/components/SuggestionForm.js:43-45 | the token becomes the widget's value |
| `SuggestionForm.Form.HandleSubmit` | src/components/SuggestionForm.js:47-61 | a request is issued iff the name and seat are non-empty and a token is present; an empty required field changes nothing (the browser's `required` check); without a token only the error changes; with one, the error is cleared, loading is on and the fields are posted with the token; the message is kept |
| `SuggestionForm.Form.OnSubmitResolved` | src/components/SuggestionForm.js:62-74 | pending-approval message, all three fields and the token reset, loading off |
| `SuggestionForm.Form.OnSubmitRejected` | src/components/SuggestionForm.js:75-82 | error from `FailureMessage`, loading off; fields, token and the earlier message kept |

## Left out

- src/components/Navbar.js and src/App.js: static links and the route table; routes are matched by react-router, which is not part of this model.
- Markup and inline CSS: only the choice of render branch is modelled.
- HTTP transport and response parsing: each request is an event that yields data or a `RequestError`. URLs are modelled only as far as the image join and the seat path go.
- The reCAPTCHA widget and `window.grecaptcha.reset()`: the token is an `Option<string>` input, and reset is modelled by clearing the token.
- `console.log` and `console.error`: they have no effect on state.
- Interleaving inside one handler: `HandleVote` and `HandleProConSubmitted` apply the post and refresh outcomes in one step. So the model does not capture a refresh landing after the route has changed to another candidate. Only the fetch cycles of the profile and the list are split into separate completion events.
- CandidateProfile's two sequential GETs (candidate, then statements) are one completion per cycle. If either fails, the same catch runs, so `Reject` covers both.
- The image `onError` swap in src/components/CandidateList.js:88: it sets the DOM element's `src` and keeps no state.
- React's batching of state updates and re-render timing: each handler's updates are applied together, in source order.
