/** The App component as an object: its state cells are fields that the
    handlers assign in place, and each handler is proved to perform the
    transition of the same name in Workspace. */
module AppComponent {
  import opened Wrappers
  import opened JsValues
  import opened Workspace

  class App {
    var selectedFile: Option<FileRef>
    var preview: Option<Url>
    var result: Json
    var isLoading: bool
    var error: Option<string>
    var activeSection: Section

    /** The URL the preview effect's returned cleanup closes over. */
    var cleanup: Option<Url>
    /** Stands in for URL.createObjectURL: the next handle it hands out. */
    var nextUrl: Url

    ghost var live: set<Url>
    ghost var revoked: seq<Url>
    ghost var madeFor: map<Url, FileRef>
    ghost var pending: nat

    ghost function Snapshot(): State
      reads this
    {
      State(selectedFile, preview, result, isLoading, error, activeSection,
            cleanup, nextUrl, live, revoked, madeFor, pending)
    }

    ghost predicate Valid()
      reads this
    {
      Inv(Snapshot())
    }

    /** Mounting: the `useState` defaults, then the effect's first run, which
        finds no file and only clears the preview. */
    constructor ()
      ensures Valid() && Snapshot() == Init()
    {
      selectedFile, preview, result, isLoading, error, activeSection := None, None, Null, false, None, Home;
      cleanup, nextUrl := None, 0;
      live, revoked, madeFor, pending := {}, [], map[], 0;
    }

    /** Stands in for `URL.createObjectURL(file)`: a fresh handle, made from
        `file` and live from now on. */
    method CreateObjectUrl(file: FileRef) returns (url: Url)
      modifies this
      ensures url == old(nextUrl) && nextUrl == old(nextUrl) + 1
      ensures Snapshot() == old(Snapshot()).(nextUrl := url + 1, live := old(live) + {url},
                                             madeFor := old(madeFor)[url := file])
    {
      url := nextUrl;
      nextUrl := nextUrl + 1;
      live := live + {url};
      madeFor := madeFor[url := file];
    }

    /** Runs the cleanup the effect last returned, if any. */
    method RunCleanup()
      modifies this
      ensures Snapshot() == Cleanup(old(Snapshot()))
    {
      if cleanup.Some? {
        var url := cleanup.value;
        live := live - {url};
        revoked := revoked + [url];
        cleanup := None;
      }
    }

    /** The preview effect, run after a commit whose previous `selectedFile`
        was `prev`. */
    method PreviewEffectRun(prev: Option<FileRef>)
      modifies this
      ensures Snapshot() == PreviewEffect(old(Snapshot()), prev)
    {
      if selectedFile != prev {
        RunCleanup();
        if selectedFile.None? {
          preview := None;
        } else {
          var url := CreateObjectUrl(selectedFile.value);
          preview := Some(url);
          cleanup := Some(url);
        }
      }
    }

    method HandleFileChange(files: seq<FileRef>)
      requires Valid()
      modifies this
      ensures Valid() && Snapshot() == PickFile(old(Snapshot()), files)
    {
      ghost var before := Snapshot();
      if |files| > 0 {
        var prev := selectedFile;
        selectedFile := Some(files[0]);
        result := Null;
        error := None;
        PreviewEffectRun(prev);
      }
      PickFilePreservesInv(before, files);
    }

    /** The synchronous part of handleSubmit; `requestSent` says whether the
        request to the service was issued. */
    method HandleSubmit() returns (requestSent: bool)
      requires Valid()
      modifies this
      ensures Valid() && Snapshot() == BeginSubmit(old(Snapshot()))
      ensures requestSent <==> old(selectedFile).Some?
    {
      ghost var before := Snapshot();
      if selectedFile.None? {
        error := Some(NoFileMessage);
        requestSent := false;
      } else {
        isLoading := true;
        error := None;
        pending := pending + 1;
        requestSent := true;
      }
      BeginSubmitPreservesInv(before);
    }

    /** The part of handleSubmit after `await`: the request's outcome arrives. */
    method SettleSubmit(outcome: Outcome)
      requires Valid() && pending > 0
      modifies this
      ensures Valid() && Snapshot() == CompleteSubmit(old(Snapshot()), outcome)
    {
      ghost var before := Snapshot();
      if Succeeds(outcome) {
        result := outcome.body.value;
      } else {
        error := Some(FailureMessage);
      }
      isLoading := false;
      pending := pending - 1;
      CompleteSubmitPreservesInv(before, outcome);
    }

    method HandleReset()
      requires Valid()
      modifies this
      ensures Valid() && Snapshot() == Reset(old(Snapshot()))
    {
      ghost var before := Snapshot();
      var prev := selectedFile;
      selectedFile := None;
      preview := None;
      result := Null;
      error := None;
      PreviewEffectRun(prev);
      ResetPreservesInv(before);
    }

    method HandleNavigation(section: Section)
      requires Valid()
      modifies this
      ensures Valid() && Snapshot() == Navigate(old(Snapshot()), section)
    {
      ghost var before := Snapshot();
      var prev := selectedFile;
      activeSection := section;
      selectedFile := None;
      preview := None;
      result := Null;
      error := None;
      PreviewEffectRun(prev);
      NavigatePreservesInv(before, section);
    }

    /** Unmounting: the last cleanup runs and no URL stays live. */
    method Unmount()
      requires Valid()
      modifies this
      ensures Snapshot() == Workspace.Unmount(old(Snapshot()))
      ensures live == {} && forall u: Url :: u < nextUrl ==> RevocationCount(Snapshot(), u) == 1
    {
      ghost var before := Snapshot();
      RunCleanup();
      UnmountReleasesEverything(before);
    }
  }
}
