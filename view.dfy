/** What the component renders, as predicates over its state (the JSX
    conditions), and the facts that relate them. */
module View {
  import opened Wrappers
  import opened JsValues
  import opened Workspace

  const DetectedLabel: string := "Deepfake Detected"
  const AuthenticLabel: string := "Authentic Image"

  /** The detector container is rendered on the home section only. */
  predicate DetectorShown(s: State) {
    s.section == Home
  }

  /** The upload form is rendered while there is no (truthy) result. */
  predicate UploadFormShown(s: State) {
    DetectorShown(s) && !Truthy(s.result)
  }

  /** Inside the form, the preview image replaces the placeholder text. */
  predicate PreviewImageShown(s: State) {
    UploadFormShown(s) && s.preview.Some?
  }

  /** The submit button is rendered only when a file is selected. */
  predicate SubmitButtonShown(s: State) {
    UploadFormShown(s) && s.selectedFile.Some?
  }

  predicate SubmitButtonDisabled(s: State) {
    s.isLoading
  }

  function SubmitButtonCaption(s: State): string {
    if s.isLoading then "Analyzing..." else "Analyze Image"
  }

  /** The error paragraph, under the form, for a non-empty message. */
  predicate ErrorShown(s: State) {
    UploadFormShown(s) && s.error.Some? && s.error.value != ""
  }

  predicate LoaderShown(s: State) {
    DetectorShown(s) && s.isLoading
  }

  predicate ResultShown(s: State) {
    DetectorShown(s) && Truthy(s.result)
  }

  /** The label of the result card, chosen by the truthiness of `is_fake`. */
  function ResultLabel(result: Json): string
    requires Truthy(result)
  {
    if IsFakeTruthy(result) then DetectedLabel else AuthenticLabel
  }

  /** The CSS class of the result card, chosen the same way. */
  function ResultCardClass(result: Json): string
    requires Truthy(result)
  {
    if IsFakeTruthy(result) then "result-card fake" else "result-card real"
  }

  /** On the home section exactly one of the upload form and the result card
      is rendered. */
  lemma FormXorResult(s: State)
    requires DetectorShown(s)
    ensures UploadFormShown(s) <==> !ResultShown(s)
  {
  }

  /** In a consistent state the preview image is rendered exactly when the
      submit button is, and a set error is always rendered under the form. */
  lemma PreviewWithButton(s: State)
    requires Inv(s)
    ensures PreviewImageShown(s) <==> SubmitButtonShown(s)
    ensures ErrorShown(s) <==> UploadFormShown(s) && s.error.Some?
  {
  }

  /** For the body the page expects, an object with `is_fake` and
      `confidence`, the card's label and class follow its `is_fake` field. */
  lemma VerdictLabel(isFake: bool, confidence: real)
    ensures ResultLabel(Verdict(isFake, confidence)) == if isFake then DetectedLabel else AuthenticLabel
    ensures ResultCardClass(Verdict(isFake, confidence)) == if isFake then "result-card fake" else "result-card real"
  {
  }

  /** The body is not validated: an object without a boolean `is_fake` is shown
      as a result all the same, labelled by the truthiness of what it holds. */
  lemma UnvalidatedBodyIsShown(isFakeText: string)
    requires isFakeText != ""
    ensures var body := Object(map["is_fake" := Str(isFakeText)]);
      Truthy(body) && ResultLabel(body) == DetectedLabel
    ensures ResultLabel(Object(map[])) == AuthenticLabel
  {
  }

  /** A falsy body (such as the JSON text `null` or `false`) is stored, yet the
      page keeps showing the upload form and no result card. */
  lemma FalsyBodyShowsForm(s: State, body: Json)
    requires s.pending > 0 && DetectorShown(s) && !Truthy(body)
    ensures var r := CompleteSubmit(s, Responded(200, Some(body)));
      UploadFormShown(r) && !ResultShown(r) && r.result == body
  {
  }

  /** Starting a submission with a file on the home section: the loader shows,
      and the button, if the form is up, is disabled and reads "Analyzing...". */
  lemma SubmittingShowsLoader(s: State)
    requires s.selectedFile.Some? && DetectorShown(s)
    ensures var r := BeginSubmit(s);
      LoaderShown(r) && SubmitButtonDisabled(r) && SubmitButtonCaption(r) == "Analyzing..."
      && !ErrorShown(r)
  {
  }

  /** Whenever a request settles, the loader goes away and the button is
      enabled again. */
  lemma CompletionHidesLoader(s: State, o: Outcome)
    requires s.pending > 0
    ensures var r := CompleteSubmit(s, o);
      !LoaderShown(r) && !SubmitButtonDisabled(r) && SubmitButtonCaption(r) == "Analyze Image"
  {
  }

  /** After a reset on the home section the empty upload form is back: no
      preview, no button, no error, no result card. */
  lemma ResetShowsEmptyForm(s: State)
    requires DetectorShown(s)
    ensures var r := Reset(s);
      UploadFormShown(r) && !PreviewImageShown(r) && !SubmitButtonShown(r) && !ErrorShown(r) && !ResultShown(r)
  {
  }
}
