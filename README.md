# Deepfake detector workspace — a Dafny model

This project models the one stateful part of the deepfake detector's browser
client: the `App` component. The component holds six state cells: the selected
file, the preview object URL, the analysis result, the loading flag, the error
message and the active section. It changes them through four event handlers.
An effect creates an object URL for the selected file and revokes it again.
The page decides what to render from the same cells.

The model has these parts.

- `Wrappers` (wrappers.dfy) is the optional value used for the nullable state cells.
- `JsValues` (jsvalues.dfy) is the parsed JSON a response body becomes, with
  JavaScript truthiness and the `is_fake` property read the page relies on.
- `Workspace` (workspace.dfy) is the state as a value: one function per handler and one for the
  preview effect, and the invariant every reachable state keeps. The effect's
  resource discipline is checked against a live set of URLs and a
  sequence of revocations. "Exactly once" means a multiset count of 1.
- `Sessions` (sessions.dfy) covers sequences of events. An induction over any admissible
  sequence shows that the invariant holds after every step. It also has lemmas
  that record, on all inputs, behaviour a reader might expect the code to have
  and that it does not have.
- `View` (view.dfy) holds the JSX conditions as predicates over the state, and lemmas relating them.
- `Page` (page.dfy) restricts events to those the rendered page can deliver: a control
  is used only while it is rendered and enabled. Under that restriction
  stronger facts hold.
- `AppComponent.App` (app.dfy) is the component as a class with one field per state cell.
  Its handler methods assign those fields in place. Each is proved to
  perform the corresponding `Workspace` transition and to keep the invariant.

Outside inputs are parameters:

- The network call is an `Outcome`: `fetch` rejects, or a response arrives
  with a status and a body that `response.json()` parsed or rejected.
- `URL.createObjectURL` is a counter that hands out fresh handles.
- Files are opaque identities, compared as React compares effect dependencies
  (`Object.is`).
- Each handler is one atomic step. When it changes `selectedFile`, the effect
  runs straight after it.

Behaviour a reader might expect that the code does not have:

- No stale-response check: a completion arriving after navigation or reset
  still writes `result` or `error` (`Sessions.LateSuccessAfterNavigateIsApplied`,
  `Sessions.LateFailureAfterResetIsApplied`).
- The handler has no guard against a second submission; only the disabled
  button stands in the way (`Sessions.SecondSubmitIssuesSecondRequest`). With
  two requests in flight, the first completion turns the loader off
  (`Sessions.LoadingOffWithRequestOutstanding`).
- There is one failure message for transport failures, non-OK statuses and
  unparsable bodies (`Sessions.FailuresAreIndistinguishable`).
- The body is not validated: whatever `response.json()` yields becomes the
  result. `result` is therefore a JSON value, tested with JavaScript
  truthiness (`View.UnvalidatedBodyIsShown`, `View.FalsyBodyShowsForm`).
- The handlers do not keep result and error exclusive, in two ways. A
  validation message written while a request is in flight survives its success
  (`Sessions.ResultAndErrorTogether`). With two requests in flight, a success
  followed by a failure leaves both (`Sessions.SuccessThenFailureKeepsBoth`).
  The page blocks both. The no-file submission would need a submit button,
  which is rendered only with a file (src/App.js:99). A second request would
  need the button while loading, and it is disabled then (src/App.js:100). With page events only,
  at most one request is in flight, a result never comes with an error, and
  the validation message never appears (`Page.PageReachable`).
- Reset and navigation leave `isLoading` as it is.

## Model

| member | source | states |
|---|---|---|
| `JsValues.Verdict` | src/App.js:114-121 | the body the page expects, an object with `is_fake` and `confidence`, is truthy, and its `is_fake` reads truthy exactly when the verdict is fake |
| `Workspace.Init` | src/App.js:7-22 | after mounting: no file, no preview, a falsy result, not loading, no error, section home, no live URL, no request, and the invariant holds |
| `Workspace.Cleanup` | src/App.js:21 | the effect's cleanup revokes the URL it closed over, appends it once to the revocations, and changes nothing else |
| `Workspace.PreviewEffect` | src/App.js:14-22 | an unchanged file object: nothing happens; a changed one: the previous URL is revoked, there is a preview exactly when there is a file, a new preview is the fresh handle, made from the selected file, and the only one added to the live set; no other cell changes |
| `Workspace.PickFile` | src/App.js:24-30 | an empty pick changes nothing; a pick selects the first file and clears result and error, keeping loading, section and requests; under the invariant a different file revokes the URL made from the previous file and leaves exactly the new fresh URL, made from the picked file, live; re-picking the same file object leaves the preview and the URLs alone |
| `Workspace.BeginSubmit` | src/App.js:32-39 | with no file: the validation message is set, loading is unchanged and no request is issued; with a file: loading on, error cleared, exactly one request issued; the file, preview and result are untouched |
| `Workspace.CompleteSubmit` | src/App.js:48-57 | on every outcome loading goes off and one request is settled; a success stores the body as the result and leaves the error; every failure sets the single failure message and leaves the result |
| `Workspace.Reset` | src/App.js:60-65 | file, preview, result and error cleared; section, loading and requests kept; under the invariant no URL stays live and the URL made from the previous file is revoked once |
| `Workspace.Navigate` | src/App.js:67-73 | the requested section becomes active, even if already active, and the workspace is cleared as by reset; loading and requests are kept; the URL made from the previous file is revoked once |
| `Workspace.Unmount` | src/App.js:21 | unmounting runs the last cleanup: the revocations gain the pending URL and nothing else |
| `Workspace.UnmountReleasesEverything` | src/App.js:14-22 | unmounting a consistent workspace leaves no URL live, and every URL ever created has been revoked exactly once |
| `Workspace.CleanupKeepsResources` | src/App.js:21 | the cleanup keeps the resources consistent and leaves no URL live |
| `Workspace.CreatePreview` | src/App.js:19-20 | a fresh handle, recorded as made from the selected file, becomes the preview and the effect's cleanup, and is added to the live set |
| `Workspace.PreviewMadeFor` | src/App.js:19 | the current preview URL was created from the given file |
| `Workspace.CreateKeepsResources` | src/App.js:19-20 | creating a fresh URL once the old one is revoked keeps each URL's revocation count consistent |
| `Workspace.PreviewEffectKeepsResources` | src/App.js:14-22 | the effect keeps the resources consistent, and each run leaves the preview equal to the URL it created and present exactly when a file is selected |
| `Workspace.PickFilePreservesInv` | src/App.js:24-30 | a pick keeps the invariant |
| `Workspace.BeginSubmitPreservesInv` | src/App.js:32-39 | a submission start keeps the invariant |
| `Workspace.CompleteSubmitPreservesInv` | src/App.js:48-57 | a completion keeps the invariant |
| `Workspace.ResetPreservesInv` | src/App.js:60-65 | a reset keeps the invariant |
| `Workspace.NavigatePreservesInv` | src/App.js:67-73 | a navigation keeps the invariant |
| `Sessions.Step` | src/App.js:77-124 | binds each event to its handler: the file input to the pick, the form submit to the start of a submission, a settled request to its completion, the reset button to reset, a navbar link to navigation |
| `Sessions.StepPreservesInv` | src/App.js:24-73 | every event the component can receive keeps the invariant |
| `Sessions.RunPreservesInv` | src/App.js:14-73 | every admissible sequence of events keeps the invariant |
| `Sessions.Reachable` | src/App.js:14-57 | after any sequence from mounting: at most one live URL, and it is the preview, made from the selected file; a preview exactly when a file is selected; every other created URL revoked exactly once; loading only while a request is outstanding; only the two known error messages |
| `Sessions.ReachableThenUnmount` | src/App.js:14-22 | unmounting after any sequence of events leaves no leaked URL and no double revocation |
| `Sessions.LateSuccessAfterNavigateIsApplied` | src/App.js:50-51 | a success arriving after navigation still writes its body as the result |
| `Sessions.LateFailureAfterResetIsApplied` | src/App.js:52-53 | a failure arriving after reset still writes the failure message |
| `Sessions.SecondSubmitIssuesSecondRequest` | src/App.js:32-39 | submitting while loading issues another request; the handler has no guard |
| `Sessions.FailuresAreIndistinguishable` | src/App.js:48-53 | any two failure outcomes lead to the same state |
| `Sessions.LoadingOffWithRequestOutstanding` | src/App.js:55-56 | with two requests in flight, the first completion turns loading off while one request is still outstanding |
| `Sessions.PickTwiceKeepsOnePreview` | src/App.js:14-30 | picking A then B leaves only the URL made from B live, the one made from A revoked once, no result and no error |
| `Sessions.SuccessThenFailureKeepsBoth` | src/App.js:48-56 | with two requests in flight, a success then a failure leave a truthy result next to the failure message |
| `Sessions.ResultAndErrorTogether` | src/App.js:34-51 | the handlers alone let a validation message set while a request was in flight survive that request's success; the page never delivers that submission |
| `View.FormXorResult` | src/App.js:83-109 | on the home section, exactly one of upload form and result card is rendered |
| `View.PreviewWithButton` | src/App.js:87-105 | in a consistent state the preview image is shown exactly when the submit button is, and a set error is always shown under the form |
| `View.VerdictLabel` | src/App.js:113-119 | for the body the page expects (an object with `is_fake` and `confidence`) the card's label and class follow `is_fake` |
| `View.UnvalidatedBodyIsShown` | src/App.js:114-118 | an object with a non-empty string `is_fake` is labelled "Deepfake Detected"; one without the field is labelled "Authentic Image" |
| `View.FalsyBodyShowsForm` | src/App.js:51-109 | a falsy body is stored as the result, yet the upload form stays and no result card shows |
| `View.SubmittingShowsLoader` | src/App.js:38-39 | a started submission shows the loader, disables the button, captions it "Analyzing..." and shows no error |
| `View.CompletionHidesLoader` | src/App.js:55-56 | after any completion the loader is gone and the button is enabled with caption "Analyze Image" |
| `View.ResetShowsEmptyForm` | src/App.js:60-65 | after a reset on home: the form is shown with no preview, no button, no error and no result card |
| `JsValues.Truthy` | src/App.js:83 | JavaScript truthiness of a parsed JSON value, as the `!result` and `result &&` tests read it |
| `JsValues.IsFakeTruthy` | src/App.js:114-118 | truthiness of `result.is_fake`: only an object can carry the field; an absent field is undefined and falsy |
| `Workspace.ResponseOk` | src/App.js:48 | `response.ok`: the status is in 200 to 299 |
| `Workspace.Succeeds` | src/App.js:48-51 | the outcomes that reach `setResult(data)`: an ok status and a body that parsed |
| `View.DetectorShown` | src/App.js:79 | the detector is rendered on the home section only |
| `View.UploadFormShown` | src/App.js:83 | the upload form is rendered on home while the result is falsy |
| `View.PreviewImageShown` | src/App.js:87-91 | inside the form, the preview image replaces the placeholder text when there is a preview |
| `View.SubmitButtonShown` | src/App.js:99 | the submit button is rendered inside the form only with a selected file |
| `View.SubmitButtonDisabled` | src/App.js:100 | the button is disabled exactly while loading |
| `View.SubmitButtonCaption` | src/App.js:101 | "Analyzing..." while loading, "Analyze Image" otherwise |
| `View.ErrorShown` | src/App.js:105 | the error paragraph is rendered under the form for a non-empty message |
| `View.LoaderShown` | src/App.js:108 | the loader is rendered on home exactly while loading |
| `View.ResultShown` | src/App.js:109 | the result card is rendered on home exactly while the result is truthy |
| `View.ResultCardClass` | src/App.js:113-115 | the card's class is "fake" when `is_fake` is truthy, "real" otherwise |
| `View.ResultLabel` | src/App.js:117-119 | the label is "Deepfake Detected" when `is_fake` is truthy, "Authentic Image" otherwise |
| `Page.PageEnabled` | src/App.js:77-124 | a pick only while the upload form is shown, a submit only while the button is shown and enabled, a reset only while the result card is shown, a navigation always, a completion only for an issued request |
| `Page.PageStepKeepsPageInv` | src/App.js:24-109 | every event the page can deliver is accepted by the component and keeps the page invariant |
| `Page.PageRunKeepsPageInv` | src/App.js:24-109 | every sequence of page events is admissible and keeps the page invariant |
| `Page.PageReachable` | src/App.js:34-109 | from mounting, with page events only: at most one request in flight, loading exactly while one is, never a result together with an error, never the no-file message |
| `AppComponent.App.constructor` | src/App.js:7-22 | the fields start at the mount state and the invariant holds |
| `AppComponent.App.CreateObjectUrl` | src/App.js:19 | hands out a fresh handle, records the file it was made from, and marks it live |
| `AppComponent.App.RunCleanup` | src/App.js:21 | updates the fields as `Workspace.Cleanup` |
| `AppComponent.App.PreviewEffectRun` | src/App.js:14-22 | updates the fields as `Workspace.PreviewEffect` |
| `AppComponent.App.HandleFileChange` | src/App.js:24-30 | updates the fields as `Workspace.PickFile` and keeps the invariant |
| `AppComponent.App.HandleSubmit` | src/App.js:32-47 | updates the fields as `Workspace.BeginSubmit`, keeps the invariant, and reports that a request is sent exactly when a file was selected |
| `AppComponent.App.SettleSubmit` | src/App.js:48-57 | updates the fields as `Workspace.CompleteSubmit` and keeps the invariant |
| `AppComponent.App.HandleReset` | src/App.js:60-65 | updates the fields as `Workspace.Reset` and keeps the invariant |
| `AppComponent.App.HandleNavigation` | src/App.js:67-73 | updates the fields as `Workspace.Navigate` and keeps the invariant |
| `AppComponent.App.Unmount` | src/App.js:21 | runs the last cleanup: no URL stays live and every created URL has been revoked exactly once |

## Left out

- The request itself is not modelled: `FormData`, `fetch`, the `REACT_APP_API_URL` setting and its local default (src/App.js:40-47). These are network and foreign calls. Their result is the `Outcome` parameter of the completion.
- `console.error` (src/App.js:54) is logging output.
- `e.preventDefault()` (src/App.js:33) is not modelled: it has no effect on the state.
- The confidence percentage, `Math.round(result.confidence * 100)` (src/App.js:121), is floating-point formatting. Numbers are kept as opaque reals.
- React's scheduling is not modelled: batching of state updates and effect timing. Each handler is one atomic step, followed by the effect when `selectedFile` changed.
- A `files` list that is null is treated like an empty one in `Workspace.PickFile`, since both fail the same test (src/App.js:25).
- The about and technology sections (src/App.js:128-311) are static text.
- src/components/Navbar.js only renders three links that call the navigation handler with a fixed section, plus an `active` class. `Workspace.Section` and `Workspace.Navigate` cover that.
- src/components/Footer.js is static markup.
