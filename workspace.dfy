/** The state of the detector workspace and its transitions, one function per
    event handler of the App component. Each handler is an atomic step; when a
    handler changes `selectedFile`, the preview effect runs right after it,
    as React does once the new state is committed. */
module Workspace {
  import opened Wrappers
  import opened JsValues

  /** Identity of a browser File object; React compares the dependency of the
      preview effect with Object.is, that is, by identity. */
  type FileRef = nat

  /** An object URL handle. URL.createObjectURL is modelled by a counter, so
      every created handle is distinct from every earlier one. */
  type Url = nat

  datatype Section = Home | About | Technology

  const NoFileMessage: string := "Please select an image first."
  const FailureMessage: string := "Failed to analyze image. Is the server running?"

  /** How the single request issued by a submission ends: `fetch` rejects
      (the service cannot be reached), or a response arrives with a status and
      a body that `response.json()` either parses (Some) or rejects (None). */
  datatype Outcome =
    | TransportFailure
    | Responded(status: int, body: Option<Json>)

  /** `response.ok`: the status lies in the range 200 to 299. */
  predicate ResponseOk(status: int) {
    200 <= status <= 299
  }

  /** The outcomes that reach `setResult(data)`; every other one is caught. */
  predicate Succeeds(o: Outcome) {
    o.Responded? && ResponseOk(o.status) && o.body.Some?
  }

  datatype State = State(
    // the six state cells of the component
    selectedFile: Option<FileRef>,
    preview: Option<Url>,
    result: Json,              // Null is the initial and the cleared value
    isLoading: bool,
    error: Option<string>,
    section: Section,
    // the URL whose revocation the preview effect last scheduled as its cleanup
    cleanup: Option<Url>,
    // what the browser keeps outside the component
    nextUrl: Url,              // the next handle URL.createObjectURL returns
    live: set<Url>,            // created and not yet revoked
    revoked: seq<Url>,         // every revocation, in order
    madeFor: map<Url, FileRef>, // the file each created URL was made from
    pending: nat               // requests issued whose completion has not run
  )

  /** Number of times `u` has been revoked. */
  function RevocationCount(s: State, u: Url): nat {
    multiset(s.revoked)[u]
  }

  /** The browser resources are consistent with the effect's bookkeeping: the
      only live URL is the one the pending cleanup will revoke, every created
      URL that is no longer live was revoked exactly once, and no URL was
      revoked before it was created. */
  ghost predicate ResourcesOk(s: State) {
    && s.live == s.cleanup.ToSet()
    && (forall u :: u in s.live ==> u < s.nextUrl)
    && (forall u :: u in s.revoked ==> u < s.nextUrl)
    && (forall u: Url :: u < s.nextUrl ==> RevocationCount(s, u) == if u in s.live then 0 else 1)
  }

  /** After the effect has run, the preview is the URL it created, there is one
      exactly when a file is selected, and it was made from that file. */
  predicate PreviewInSync(s: State) {
    && s.preview == s.cleanup
    && (s.preview.Some? <==> s.selectedFile.Some?)
    && (s.preview.Some? ==> PreviewMadeFor(s, s.selectedFile.value))
  }

  /** The current preview URL was created from `f`. */
  predicate PreviewMadeFor(s: State, f: FileRef)
    requires s.preview.Some?
  {
    s.preview.value in s.madeFor && s.madeFor[s.preview.value] == f
  }

  /** The messages the component can show. */
  predicate ErrorIsKnown(e: Option<string>) {
    e == None || e == Some(NoFileMessage) || e == Some(FailureMessage)
  }

  /** The invariant of every state reachable from mounting the component. */
  ghost predicate Inv(s: State) {
    && ResourcesOk(s)
    && PreviewInSync(s)
    && ErrorIsKnown(s.error)
    && (s.isLoading ==> s.pending > 0)
  }

  /** The state right after mounting: every cell at its `useState` default and
      the effect's first run, which finds no file and creates nothing. */
  function Init(): (r: State)
    ensures Inv(r)
    ensures r.selectedFile == None && r.preview == None && r.result == Null
    ensures !r.isLoading && r.error == None && r.section == Home
    ensures r.live == {} && r.pending == 0
  {
    State(None, None, Null, false, None, Home, None, 0, {}, [], map[], 0)
  }

  /** Running the cleanup the preview effect scheduled: revoke the URL it
      created, if any. */
  function Cleanup(s: State): (r: State)
    ensures r.cleanup == None
    ensures r.live == s.live - s.cleanup.ToSet()
    ensures r.revoked == s.revoked + s.cleanup.ToSeq()
    ensures r.nextUrl == s.nextUrl
    ensures r.(cleanup := s.cleanup, live := s.live, revoked := s.revoked) == s
  {
    match s.cleanup
    case None => s
    case Some(u) => s.(cleanup := None, live := s.live - {u}, revoked := s.revoked + [u])
  }

  /** The preview effect, whose dependency is `selectedFile`. `prev` is the
      file of the previous commit; when it is the same object the effect does
      not run. Otherwise the previous cleanup runs, and then either the preview
      is cleared (no file) or a fresh URL is created and becomes the preview. */
  function PreviewEffect(s: State, prev: Option<FileRef>): (r: State)
    ensures s.selectedFile == prev ==> r == s
    ensures s.selectedFile != prev ==>
      && r.revoked == s.revoked + s.cleanup.ToSeq()
      && r.cleanup == r.preview
      && (r.preview.Some? <==> s.selectedFile.Some?)
      && (r.preview.Some? ==> r.preview.value == s.nextUrl && r.live == s.live - s.cleanup.ToSet() + {s.nextUrl})
      && (r.preview.Some? ==> r.madeFor == s.madeFor[s.nextUrl := s.selectedFile.value])
      && (r.preview.None? ==> r.live == s.live - s.cleanup.ToSet() && r.madeFor == s.madeFor)
    ensures r.selectedFile == s.selectedFile && r.result == s.result && r.isLoading == s.isLoading
    ensures r.error == s.error && r.section == s.section && r.pending == s.pending
  {
    if s.selectedFile == prev then s
    else
      var c := Cleanup(s);
      if c.selectedFile.None? then c.(preview := None)
      else CreatePreview(c)
  }

  /** `URL.createObjectURL(selectedFile)` and `setPreview`: a fresh handle made
      from the selected file becomes the preview and the effect's cleanup. */
  function CreatePreview(c: State): (r: State)
    requires c.selectedFile.Some?
    ensures r.preview == r.cleanup == Some(c.nextUrl) && r.nextUrl == c.nextUrl + 1
    ensures r.live == c.live + {c.nextUrl} && PreviewMadeFor(r, c.selectedFile.value)
    ensures r.madeFor == c.madeFor[c.nextUrl := c.selectedFile.value]
    ensures r.(preview := c.preview, cleanup := c.cleanup, nextUrl := c.nextUrl, live := c.live, madeFor := c.madeFor) == c
  {
    c.(preview := Some(c.nextUrl), cleanup := Some(c.nextUrl), nextUrl := c.nextUrl + 1,
       live := c.live + {c.nextUrl}, madeFor := c.madeFor[c.nextUrl := c.selectedFile.value])
  }

  /** handleFileChange: a pick with at least one file selects the first one and
      clears the result and the error; an empty or cancelled pick does nothing. */
  function PickFile(s: State, files: seq<FileRef>): (r: State)
    ensures |files| == 0 ==> r == s
    ensures |files| > 0 ==>
      && r.selectedFile == Some(files[0]) && r.result == Null && r.error == None
      && r.isLoading == s.isLoading && r.section == s.section && r.pending == s.pending
    ensures Inv(s) && |files| > 0 && s.selectedFile != Some(files[0]) ==>
      && r.preview == Some(s.nextUrl) && r.live == {s.nextUrl} && PreviewMadeFor(r, files[0])
      && r.revoked == s.revoked + s.preview.ToSeq()
      && (s.preview.Some? ==> s.selectedFile.Some? && PreviewMadeFor(s, s.selectedFile.value))
    ensures |files| > 0 && s.selectedFile == Some(files[0]) ==>
      && r.preview == s.preview && r.cleanup == s.cleanup && r.nextUrl == s.nextUrl
      && r.live == s.live && r.revoked == s.revoked && r.madeFor == s.madeFor
  {
    if |files| == 0 then s
    else PreviewEffect(s.(selectedFile := Some(files[0]), result := Null, error := None), s.selectedFile)
  }

  /** The synchronous part of handleSubmit. Without a file it only reports the
      validation message; with one it starts loading, clears the error and
      issues one request. There is no check for a request already in flight. */
  function BeginSubmit(s: State): (r: State)
    ensures s.selectedFile.None? ==>
      && r.error == Some(NoFileMessage) && r.isLoading == s.isLoading && r.pending == s.pending
      && r.result == s.result && r.section == s.section && r.selectedFile == s.selectedFile
      && r.preview == s.preview && r.live == s.live && r.revoked == s.revoked
    ensures s.selectedFile.Some? ==>
      && r.isLoading && r.error == None && r.pending == s.pending + 1
      && r.result == s.result && r.section == s.section && r.selectedFile == s.selectedFile
      && r.preview == s.preview && r.live == s.live && r.revoked == s.revoked
    ensures r.cleanup == s.cleanup && r.nextUrl == s.nextUrl && r.madeFor == s.madeFor
  {
    if s.selectedFile.None? then s.(error := Some(NoFileMessage))
    else s.(isLoading := true, error := None, pending := s.pending + 1)
  }

  /** The continuation of handleSubmit once its request settles: a success
      stores the parsed body as the result, every failure stores the one
      failure message, and in both cases loading stops. The completion is
      applied to whatever the state is by then: there is no check that the
      workspace is still the one the request was made for. */
  function CompleteSubmit(s: State, o: Outcome): (r: State)
    requires s.pending > 0
    ensures !r.isLoading && r.pending == s.pending - 1
    ensures Succeeds(o) ==> r.result == o.body.value && r.error == s.error
    ensures !Succeeds(o) ==> r.result == s.result && r.error == Some(FailureMessage)
    ensures r.section == s.section && r.selectedFile == s.selectedFile && r.preview == s.preview
    ensures r.live == s.live && r.revoked == s.revoked
    ensures r.cleanup == s.cleanup && r.nextUrl == s.nextUrl && r.madeFor == s.madeFor
  {
    var settled := if Succeeds(o) then s.(result := o.body.value) else s.(error := Some(FailureMessage));
    settled.(isLoading := false, pending := s.pending - 1)
  }

  /** handleReset: the file, preview, result and error are cleared; the section,
      the loading flag and any request in flight are not touched. */
  function Reset(s: State): (r: State)
    ensures r.selectedFile == None && r.preview == None && r.result == Null && r.error == None
    ensures r.section == s.section && r.isLoading == s.isLoading && r.pending == s.pending
    ensures Inv(s) ==> r.live == {} && r.revoked == s.revoked + s.preview.ToSeq()
    ensures Inv(s) && s.preview.Some? ==> s.selectedFile.Some? && PreviewMadeFor(s, s.selectedFile.value)
  {
    PreviewEffect(s.(selectedFile := None, preview := None, result := Null, error := None), s.selectedFile)
  }

  /** handleNavigation: the requested section becomes active and the workspace
      is cleared as by Reset, also when that section is already the active one. */
  function Navigate(s: State, section: Section): (r: State)
    ensures r.section == section
    ensures r.selectedFile == None && r.preview == None && r.result == Null && r.error == None
    ensures r.isLoading == s.isLoading && r.pending == s.pending
    ensures Inv(s) ==> r.live == {} && r.revoked == s.revoked + s.preview.ToSeq()
    ensures Inv(s) && s.preview.Some? ==> s.selectedFile.Some? && PreviewMadeFor(s, s.selectedFile.value)
  {
    PreviewEffect(s.(section := section, selectedFile := None, preview := None, result := Null, error := None), s.selectedFile)
  }

  /** Unmounting runs the last cleanup of the preview effect. */
  function Unmount(s: State): (r: State)
    ensures r.revoked == s.revoked + s.cleanup.ToSeq()
  {
    Cleanup(s)
  }

  // ----- Preservation of the invariant -----

  /** Appending one revocation adds one to that URL's count and nothing else. */
  lemma RevokeCount(s: State, t: State, x: Url, u: Url)
    requires t.revoked == s.revoked + [x]
    ensures RevocationCount(t, u) == RevocationCount(s, u) + (if u == x then 1 else 0)
  {
  }

  /** Unmounting a consistent workspace leaves no URL live, and by then every
      URL the component ever created has been revoked exactly once. */
  lemma UnmountReleasesEverything(s: State)
    requires Inv(s)
    ensures Unmount(s).live == {}
    ensures forall u: Url :: u < Unmount(s).nextUrl ==> RevocationCount(Unmount(s), u) == 1
  {
    CleanupKeepsResources(s);
  }

  /** Running the cleanup keeps the resources consistent and leaves none live. */
  lemma CleanupKeepsResources(s: State)
    requires ResourcesOk(s)
    ensures ResourcesOk(Cleanup(s)) && Cleanup(s).live == {}
  {
    var c := Cleanup(s);
    forall u: Url | u < c.nextUrl
      ensures RevocationCount(c, u) == if u in c.live then 0 else 1
    {
      if s.cleanup.Some? {
        RevokeCount(s, c, s.cleanup.value, u);
      }
    }
  }

  /** Creating a fresh URL once the previous one is revoked keeps the resources
      consistent: the new handle has never been revoked. */
  lemma CreateKeepsResources(c: State)
    requires ResourcesOk(c) && c.cleanup == None && c.selectedFile.Some?
    ensures ResourcesOk(CreatePreview(c))
  {
    var n := c.nextUrl;
    var r := CreatePreview(c);
    assert c.live == {};
    assert n !in c.revoked;
    assert RevocationCount(r, n) == 0;
    forall u: Url | u < r.nextUrl
      ensures RevocationCount(r, u) == if u in r.live then 0 else 1
    {
      assert RevocationCount(r, u) == RevocationCount(c, u);
    }
  }

  /** The effect keeps the resources consistent, and whenever it runs it
      leaves the preview in step with the selected file. */
  lemma PreviewEffectKeepsResources(s: State, prev: Option<FileRef>)
    requires ResourcesOk(s)
    ensures ResourcesOk(PreviewEffect(s, prev))
    ensures s.selectedFile != prev ==> PreviewInSync(PreviewEffect(s, prev))
  {
    if s.selectedFile != prev {
      CleanupKeepsResources(s);
      var c := Cleanup(s);
      if c.selectedFile.Some? {
        CreateKeepsResources(c);
      }
    }
  }

  lemma PickFilePreservesInv(s: State, files: seq<FileRef>)
    requires Inv(s)
    ensures Inv(PickFile(s, files))
  {
    if |files| > 0 {
      PreviewEffectKeepsResources(s.(selectedFile := Some(files[0]), result := Null, error := None), s.selectedFile);
    }
  }

  lemma BeginSubmitPreservesInv(s: State)
    requires Inv(s)
    ensures Inv(BeginSubmit(s))
  {
  }

  lemma CompleteSubmitPreservesInv(s: State, o: Outcome)
    requires Inv(s) && s.pending > 0
    ensures Inv(CompleteSubmit(s, o))
  {
  }

  lemma ResetPreservesInv(s: State)
    requires Inv(s)
    ensures Inv(Reset(s))
  {
    PreviewEffectKeepsResources(s.(selectedFile := None, preview := None, result := Null, error := None), s.selectedFile);
  }

  lemma NavigatePreservesInv(s: State, section: Section)
    requires Inv(s)
    ensures Inv(Navigate(s, section))
  {
    PreviewEffectKeepsResources(s.(section := section, selectedFile := None, preview := None, result := Null, error := None), s.selectedFile);
  }
}
