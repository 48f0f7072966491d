/** The events the rendered page can actually deliver, and what holds when only
    those arrive: a control can only be used while it is rendered and enabled. */
module Page {
  import opened Wrappers
  import opened JsValues
  import opened Workspace
  import opened Sessions
  import opened View

  /** The file input sits inside the upload form, the submit button must be
      rendered and enabled, the reset button sits on the result card, the
      navigation links are always there, and a completion needs a request. */
  predicate PageEnabled(s: State, e: Event) {
    match e
    case Pick(_) => UploadFormShown(s)
    case Submit => SubmitButtonShown(s) && !SubmitButtonDisabled(s)
    case ResetClicked => ResultShown(s)
    case NavigateTo(_) => true
    case Complete(_) => s.pending > 0
  }

  /** Every event of `evs` can be delivered by the page in turn. */
  predicate PageAdmissible(s: State, evs: seq<Event>)
    decreases |evs|
  {
    |evs| == 0 || (PageEnabled(s, evs[0]) && PageAdmissible(Step(s, evs[0]), evs[1..]))
  }

  /** What the page adds to the handlers' invariant: at most one request is in
      flight and the loader shows exactly while it is; while it is in flight
      there is neither result nor error; a result never comes with an error;
      and the validation message is never shown. */
  ghost predicate PageInv(s: State) {
    && Inv(s)
    && s.pending <= 1
    && (s.isLoading <==> s.pending > 0)
    && (s.pending > 0 ==> !Truthy(s.result) && s.error == None)
    && (Truthy(s.result) ==> s.error == None)
    && s.error != Some(NoFileMessage)
  }

  lemma PageStepKeepsPageInv(s: State, e: Event)
    requires PageInv(s) && PageEnabled(s, e)
    ensures Enabled(s, e) && PageInv(Step(s, e))
  {
    StepPreservesInv(s, e);
  }

  /** Along any sequence of page events from a state satisfying PageInv, every
      event is one the component accepts and PageInv keeps holding. */
  lemma {:induction false} PageRunKeepsPageInv(s: State, evs: seq<Event>)
    requires PageInv(s) && PageAdmissible(s, evs)
    ensures Admissible(s, evs) && PageInv(Run(s, evs))
    decreases |evs|
  {
    if |evs| > 0 {
      PageStepKeepsPageInv(s, evs[0]);
      PageRunKeepsPageInv(Step(s, evs[0]), evs[1..]);
    }
  }

  /** From mounting, through page events only: no second request is ever in
      flight, result and error never appear together, and the no-file branch
      of the submit handler is never taken. */
  lemma PageReachable(evs: seq<Event>)
    requires PageAdmissible(Init(), evs)
    ensures Admissible(Init(), evs)
    ensures var r := Run(Init(), evs);
      && r.pending <= 1
      && (r.isLoading <==> r.pending > 0)
      && (Truthy(r.result) ==> r.error == None)
      && r.error != Some(NoFileMessage)
  {
    PageRunKeepsPageInv(Init(), evs);
  }
}
