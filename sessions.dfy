/** Sequences of user actions and request completions, as the browser delivers
    them to the App component, and what holds after any such sequence. */
module Sessions {
  import opened Wrappers
  import opened JsValues
  import opened Workspace

  /** One event the component reacts to. */
  datatype Event =
    | Pick(files: seq<FileRef>)
    | Submit
    | Complete(outcome: Outcome)
    | ResetClicked
    | NavigateTo(section: Section)

  /** A completion can only arrive for a request that was issued. */
  predicate Enabled(s: State, e: Event) {
    e.Complete? ==> s.pending > 0
  }

  function Step(s: State, e: Event): State
    requires Enabled(s, e)
  {
    match e
    case Pick(files) => PickFile(s, files)
    case Submit => BeginSubmit(s)
    case Complete(o) => CompleteSubmit(s, o)
    case ResetClicked => Reset(s)
    case NavigateTo(section) => Navigate(s, section)
  }

  /** Every event of `evs` can be delivered in turn, starting from `s`. */
  predicate Admissible(s: State, evs: seq<Event>)
    decreases |evs|
  {
    |evs| == 0 || (Enabled(s, evs[0]) && Admissible(Step(s, evs[0]), evs[1..]))
  }

  function Run(s: State, evs: seq<Event>): State
    requires Admissible(s, evs)
    decreases |evs|
  {
    if |evs| == 0 then s else Run(Step(s, evs[0]), evs[1..])
  }

  lemma StepPreservesInv(s: State, e: Event)
    requires Inv(s) && Enabled(s, e)
    ensures Inv(Step(s, e))
  {
    match e
    case Pick(files) => PickFilePreservesInv(s, files);
    case Submit => BeginSubmitPreservesInv(s);
    case Complete(o) => CompleteSubmitPreservesInv(s, o);
    case ResetClicked => ResetPreservesInv(s);
    case NavigateTo(section) => NavigatePreservesInv(s, section);
  }

  lemma {:induction false} RunPreservesInv(s: State, evs: seq<Event>)
    requires Inv(s) && Admissible(s, evs)
    ensures Inv(Run(s, evs))
    decreases |evs|
  {
    if |evs| > 0 {
      StepPreservesInv(s, evs[0]);
      RunPreservesInv(Step(s, evs[0]), evs[1..]);
    }
  }

  /** In every state reachable from mounting: at most one object URL is live,
      it is the preview, made from the selected file; there is a preview exactly
      when a file is selected;
      every other URL created so far was revoked exactly once, the loader can
      only be on while some request is outstanding, and a shown error is one of
      the two messages of the component. */
  lemma Reachable(evs: seq<Event>)
    requires Admissible(Init(), evs)
    ensures var r := Run(Init(), evs);
      && |r.live| <= 1
      && r.live == r.preview.ToSet()
      && (r.preview.Some? <==> r.selectedFile.Some?)
      && (r.preview.Some? ==> PreviewMadeFor(r, r.selectedFile.value))
      && (forall u: Url :: u < r.nextUrl && u !in r.live ==> RevocationCount(r, u) == 1)
      && (forall u: Url :: u in r.live ==> RevocationCount(r, u) == 0)
      && (r.isLoading ==> r.pending > 0)
      && ErrorIsKnown(r.error)
  {
    RunPreservesInv(Init(), evs);
  }

  /** Unmounting after any sequence of events releases every URL created, each
      exactly once: nothing leaks and nothing is revoked twice. */
  lemma ReachableThenUnmount(evs: seq<Event>)
    requires Admissible(Init(), evs)
    ensures var r := Unmount(Run(Init(), evs));
      r.live == {} && forall u: Url :: u < r.nextUrl ==> RevocationCount(r, u) == 1
  {
    RunPreservesInv(Init(), evs);
    UnmountReleasesEverything(Run(Init(), evs));
  }

  // ----- What the handlers do not guard against -----

  /** A response that settles after the user navigated away still writes its
      result: there is no check that the request is the current one. */
  lemma LateSuccessAfterNavigateIsApplied(s: State, section: Section, body: Json)
    requires s.pending > 0
    ensures var r := CompleteSubmit(Navigate(s, section), Responded(200, Some(body)));
      r.section == section && r.result == body && r.selectedFile == None
  {
  }

  /** The same holds after Reset; a late failure writes its message. */
  lemma LateFailureAfterResetIsApplied(s: State, o: Outcome)
    requires s.pending > 0 && !Succeeds(o)
    ensures var r := CompleteSubmit(Reset(s), o);
      r.error == Some(FailureMessage) && r.selectedFile == None
  {
  }

  /** The handler does not refuse a second submission while loading: a second
      request is issued. Only the disabled button prevents this in the page. */
  lemma SecondSubmitIssuesSecondRequest(s: State)
    requires s.isLoading && s.selectedFile.Some?
    ensures BeginSubmit(s).pending == s.pending + 1 && BeginSubmit(s).isLoading
  {
  }

  /** Every failure, whatever its cause, leads to the same state. */
  lemma FailuresAreIndistinguishable(s: State, o1: Outcome, o2: Outcome)
    requires s.pending > 0 && !Succeeds(o1) && !Succeeds(o2)
    ensures CompleteSubmit(s, o1) == CompleteSubmit(s, o2)
  {
  }

  /** With two requests in flight, the first completion switches the loading
      flag off while the second request is still outstanding. */
  lemma LoadingOffWithRequestOutstanding(f: FileRef, o: Outcome)
    ensures var r := CompleteSubmit(BeginSubmit(BeginSubmit(PickFile(Init(), [f]))), o);
      !r.isLoading && r.pending == 1
  {
  }

  /** Picking file A and then file B: only B's URL is live, the URL made from A
      was revoked once, and no result or error is set. */
  lemma PickTwiceKeepsOnePreview(a: FileRef, b: FileRef)
    requires a != b
    ensures var r := PickFile(PickFile(Init(), [a]), [b]);
      && r.live == {1} && r.preview == Some(1) && r.revoked == [0]
      && r.madeFor == map[0 := a, 1 := b]
      && r.error == None && !Truthy(r.result)
  {
  }

  /** The handlers do not keep result and error exclusive: a validation message
      written while a request was in flight survives that request's success.
      The page itself never delivers that submission, because the submit button
      is rendered only with a file (see Page.PageRunKeepsPageInv). */
  lemma ResultAndErrorTogether(f: FileRef, isFake: bool, confidence: real)
    ensures var r := CompleteSubmit(BeginSubmit(Reset(BeginSubmit(PickFile(Init(), [f])))),
                                    Responded(200, Some(Verdict(isFake, confidence))));
      Truthy(r.result) && r.error == Some(NoFileMessage)
  {
  }

  /** A second way the handlers let result and error coexist: with two requests
      in flight, a success followed by a failure leaves the stored result next
      to the failure message. The page prevents this only by disabling the
      submit button while loading. */
  lemma SuccessThenFailureKeepsBoth(f: FileRef, isFake: bool, confidence: real)
    ensures var r := CompleteSubmit(CompleteSubmit(BeginSubmit(BeginSubmit(PickFile(Init(), [f]))),
                                                   Responded(200, Some(Verdict(isFake, confidence)))),
                                    TransportFailure);
      Truthy(r.result) && r.error == Some(FailureMessage)
  {
  }
}
