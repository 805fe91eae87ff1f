/**
 * The page controller of the blog viewer: two panels (the post list page and
 * the post page) whose `hidden` classes are toggled, the post content area
 * whose HTML is replaced, and the list container filled from the manifest.
 *
 * The network is not modelled: every request is replaced by the outcome it
 * produced, given as a parameter. The markdown renderer is a function the
 * page is given and knows nothing about.
 */
module PostBrowser {
  import Title

  // ---------------------------------------------------------------------------
  // Outcomes of the requests the page makes
  // ---------------------------------------------------------------------------

  /** What one `fetch` of a post, followed by reading its body, produced. */
  datatype FetchOutcome =
    | Fetched(ok: bool, body: string)  // a response arrived; `ok` is its status flag, `body` its text
    | FetchFailed(message: string)     // the request or the reading of the body was rejected

  /** What fetching and parsing `posts/posts.json` produced. */
  datatype ManifestOutcome =
    | Manifest(files: seq<string>)
    | ManifestFailed(reason: string)   // the error, as text

  /** One link of the post list: the file it opens and the title it shows. */
  datatype Entry = Entry(file: string, title: string)

  /** The list container: as the host markup has it, with the list appended, or replaced by an error. */
  datatype ListPanel = FromMarkup | Listing(entries: seq<Entry>) | LoadError(html: string)

  // ---------------------------------------------------------------------------
  // Texts the page writes
  // ---------------------------------------------------------------------------

  /** What the post content area shows when the page is opened from the file system. */
  const FileProtocolNotice: string :=
    "\n      <div style=\"color: red; text-align: center;\">\n"
    + "        \U{26A0}\U{FE0F} Please run this site using a local server.<br>\n"
    + "        Try <code>python3 -m http.server 8000</code> and visit \n"
    + "        <a href=\"http://localhost:8000\" style=\"color: inherit;\">http://localhost:8000</a>\n"
    + "      </div>\n    "

  const PostNotFound: string := "Post not found"

  function LoadingHtml(filename: string): string {
    "<p>Loading <b>" + filename + "</b>...</p>"
  }

  function ErrorHtml(message: string): string {
    "<p style=\"color:red;\">\U{274C} " + message + "</p>"
  }

  function ManifestErrorHtml(reason: string): string {
    "<p style=\"color:red;\">\U{274C} Failed to load posts.json: " + reason + "</p>"
  }

  // ---------------------------------------------------------------------------
  // The two panels and the content area, as a value
  // ---------------------------------------------------------------------------

  datatype View = View(listHidden: bool, postHidden: bool, content: string)

  predicate ShowsList(v: View) { !v.listHidden && v.postHidden }

  predicate ShowsPost(v: View) { v.listHidden && !v.postHidden }

  /** Exactly one of the two panels is visible. */
  predicate OneViewVisible(v: View) { v.listHidden != v.postHidden }

  /** The two back buttons, `back-btn` and `back-btn-1`. */
  datatype BackControl = BackBtn | BackBtn1

  /** The click handler each back button is given. */
  function OnBack(control: BackControl, v: View): (w: View)
    ensures ShowsList(w) && w.content == v.content
  {
    match control
    case BackBtn => v.(postHidden := true, listHidden := false)
    case BackBtn1 => v.(postHidden := true, listHidden := false)
  }

  /** The placeholder `loadPost` writes before it waits for the request. */
  function ShowLoading(v: View, filename: string): (w: View)
    ensures w.listHidden == v.listHidden && w.postHidden == v.postHidden
    ensures w.content == LoadingHtml(filename)
  {
    v.(content := LoadingHtml(filename))
  }

  /** The rest of `loadPost`, once the request has an outcome. */
  function FinishLoad(v: View, outcome: FetchOutcome, render: string -> string): (w: View)
    ensures outcome.Fetched? && outcome.ok ==> ShowsPost(w) && w.content == render(outcome.body)
    ensures !(outcome.Fetched? && outcome.ok) ==> w.listHidden == v.listHidden && w.postHidden == v.postHidden
    ensures outcome.Fetched? && !outcome.ok ==> w.content == ErrorHtml(PostNotFound)
    ensures outcome.FetchFailed? ==> w.content == ErrorHtml(outcome.message)
  {
    match outcome
    case Fetched(ok, body) =>
      if !ok then v.(content := ErrorHtml(PostNotFound))
      else v.(content := render(body), listHidden := true, postHidden := false)
    case FetchFailed(message) => v.(content := ErrorHtml(message))
  }

  /**
   * What happens to the page once it is wired: a back button is pressed,
   * `loadPost` starts (up to its first `await`), or the request of a started
   * `loadPost` settles. A settling request is not tied to the call that
   * started it, as nothing in `loadPost` checks which call is the latest.
   */
  datatype Event = Back(control: BackControl) | Start(filename: string) | Settle(outcome: FetchOutcome)

  /** The effect of one event on the panels and the content area. */
  function Step(v: View, e: Event, render: string -> string): (w: View)
    ensures e.Back? ==> ShowsList(w) && w.content == v.content
    ensures e.Start? ==>
      w.listHidden == v.listHidden && w.postHidden == v.postHidden && w.content == LoadingHtml(e.filename)
    ensures e.Settle? && e.outcome.Fetched? && e.outcome.ok ==>
      ShowsPost(w) && w.content == render(e.outcome.body)
    ensures e.Settle? && !(e.outcome.Fetched? && e.outcome.ok) ==>
      w.listHidden == v.listHidden && w.postHidden == v.postHidden
    ensures e.Settle? && e.outcome.Fetched? && !e.outcome.ok ==> w.content == ErrorHtml(PostNotFound)
    ensures e.Settle? && e.outcome.FetchFailed? ==> w.content == ErrorHtml(e.outcome.message)
  {
    match e
    case Back(control) => OnBack(control, v)
    case Start(filename) => ShowLoading(v, filename)
    case Settle(outcome) => FinishLoad(v, outcome, render)
  }

  /**
   * The effect of a sequence of events, one after the other. From a state in
   * which exactly one panel is visible, every sequence keeps exactly one
   * panel visible.
   */
  function Run(v: View, events: seq<Event>, render: string -> string): (r: View)
    ensures OneViewVisible(v) ==> OneViewVisible(r)
    decreases |events|
  {
    if events == [] then v
    else Step(Run(v, events[..|events| - 1], render), events[|events| - 1], render)
  }

  /** Both back buttons have the same effect. */
  lemma {:induction false} BackControlsAgree(v: View)
    ensures OnBack(BackBtn, v) == OnBack(BackBtn1, v)
  {
  }

  /** Going back twice, by either button, is going back once. */
  lemma {:induction false} BackIdempotent(v: View, first: BackControl, second: BackControl)
    ensures OnBack(second, OnBack(first, v)) == OnBack(first, v)
  {
  }

  /**
   * A failed load leaves the panels as it found them: a failure on the list
   * page stays on the list page, whatever happened before.
   */
  lemma {:induction false} FailedLoadKeepsPanels(v: View, events: seq<Event>, outcome: FetchOutcome, render: string -> string)
    requires !(outcome.Fetched? && outcome.ok)
    ensures var before := Run(v, events, render);
      var after := Run(v, events + [Settle(outcome)], render);
      after.listHidden == before.listHidden && after.postHidden == before.postHidden
  {
    var es := events + [Settle(outcome)];
    assert es[..|es| - 1] == events;
  }

  /** The content area after any sequence of events ending in a back click is what it was before the click. */
  lemma {:induction false} BackAfterAnything(v: View, events: seq<Event>, control: BackControl, render: string -> string)
    ensures var before := Run(v, events, render);
      var after := Run(v, events + [Back(control)], render);
      ShowsList(after) && after.content == before.content
  {
    var es := events + [Back(control)];
    assert es[..|es| - 1] == events;
  }

  /**
   * Until its request settles, a started load keeps its placeholder in the
   * content area, however often the user goes back in the meantime; a
   * request that never settles leaves it there for good.
   */
  lemma {:induction false} PlaceholderUntilSettled(v: View, filename: string, backs: seq<Event>, render: string -> string)
    requires forall k :: 0 <= k < |backs| ==> backs[k].Back?
    ensures Run(v, [Start(filename)] + backs, render).content == LoadingHtml(filename)
    decreases |backs|
  {
    var es := [Start(filename)] + backs;
    if backs == [] {
      assert es[..0] == [];
    } else {
      var n := |backs| - 1;
      assert es[..|es| - 1] == [Start(filename)] + backs[..n];
      PlaceholderUntilSettled(v, filename, backs[..n], render);
    }
  }

  /**
   * Two loads in flight: whichever request settles last decides the page,
   * even when it belongs to the load started first.
   */
  lemma {:induction false} LastSettledWins(v: View, first: string, second: string, late: FetchOutcome, early: FetchOutcome, render: string -> string)
    ensures Run(v, [Start(first), Start(second), Settle(early), Settle(late)], render)
         == FinishLoad(FinishLoad(ShowLoading(v, second), early, render), late, render)
  {
    var e1 := [Start(first)];
    var e2 := e1 + [Start(second)];
    var e3 := e2 + [Settle(early)];
    var es := e3 + [Settle(late)];
    assert es[..3] == e3 && e3[..2] == e2 && e2[..1] == e1 && e1[..0] == [];
    assert Run(v, e1, render) == ShowLoading(v, first);
    assert Run(v, e2, render) == ShowLoading(v, second);
    assert Run(v, e3, render) == FinishLoad(ShowLoading(v, second), early, render);
    assert es == [Start(first), Start(second), Settle(early), Settle(late)];
  }

  // ---------------------------------------------------------------------------
  // The post list
  // ---------------------------------------------------------------------------

  /**
   * What one manifest file adds to the list: an entry titled from the body
   * when its request produced a response, whatever the response status;
   * nothing when the request failed.
   */
  function EntryOf(file: string, outcome: FetchOutcome): (r: seq<Entry>)
    ensures |r| <= 1 && (r != [] <==> outcome.Fetched?)
    ensures r != [] ==> r[0].file == file && r[0].title == Title.ExtractTitle(outcome.body, file)
  {
    match outcome
    case Fetched(_, body) => [Entry(file, Title.ExtractTitle(body, file))]
    case FetchFailed(_) => []
  }

  /** The list entries for the manifest `files`, whose post requests produced `posts`, in manifest order. */
  function Listed(files: seq<string>, posts: seq<FetchOutcome>): (entries: seq<Entry>)
    requires |files| == |posts|
    ensures |entries| <= |files|
    decreases |files|
  {
    if files == [] then []
    else
      var n := |files| - 1;
      Listed(files[..n], posts[..n]) + EntryOf(files[n], posts[n])
  }

  /** The indices of the manifest files whose request produced a response. */
  ghost function FetchedIndices(posts: seq<FetchOutcome>): set<nat> {
    set i: nat | i < |posts| && posts[i].Fetched?
  }

  /** The list has one entry per manifest file that got a response, and no other. */
  lemma {:induction false} ListedCount(files: seq<string>, posts: seq<FetchOutcome>)
    requires |files| == |posts|
    ensures |Listed(files, posts)| == |FetchedIndices(posts)|
    decreases |files|
  {
    if files != [] {
      var n := |files| - 1;
      ListedCount(files[..n], posts[..n]);
      var before := FetchedIndices(posts[..n]);
      assert n !in before;
      if posts[n].Fetched? {
        assert FetchedIndices(posts) == before + {n};
      } else {
        assert FetchedIndices(posts) == before;
      }
    }
  }

  /** The manifest file at index i got a response, and e is the entry titled from its body. */
  predicate ListedFrom(files: seq<string>, posts: seq<FetchOutcome>, i: nat, e: Entry)
    requires |files| == |posts|
  {
    i < |files| && posts[i].Fetched? && e == Entry(files[i], Title.ExtractTitle(posts[i].body, files[i]))
  }

  /**
   * An entry is listed exactly when some manifest file got a response: the
   * entry carries that file and the title extracted from the response body.
   */
  lemma {:induction false} ListedExactly(files: seq<string>, posts: seq<FetchOutcome>, e: Entry)
    requires |files| == |posts|
    ensures e in Listed(files, posts) <==> exists i :: ListedFrom(files, posts, i, e)
  {
    if e in Listed(files, posts) {
      var i := ListedOnlyFrom(files, posts, e);
    }
    if exists i :: ListedFrom(files, posts, i, e) {
      var i :| ListedFrom(files, posts, i, e);
      ListedAllFrom(files, posts, i, e);
    }
  }

  /** Every listed entry comes from a manifest file that got a response. */
  lemma {:induction false} ListedOnlyFrom(files: seq<string>, posts: seq<FetchOutcome>, e: Entry) returns (i: nat)
    requires |files| == |posts| && e in Listed(files, posts)
    ensures ListedFrom(files, posts, i, e)
    decreases |files|
  {
    var n := |files| - 1;
    if e in Listed(files[..n], posts[..n]) {
      i := ListedOnlyFrom(files[..n], posts[..n], e);
      assert files[..n][i] == files[i] && posts[..n][i] == posts[i];
    } else {
      i := n;
    }
  }

  /** Every manifest file that got a response has its entry listed. */
  lemma {:induction false} ListedAllFrom(files: seq<string>, posts: seq<FetchOutcome>, i: nat, e: Entry)
    requires |files| == |posts| && ListedFrom(files, posts, i, e)
    ensures e in Listed(files, posts)
    decreases |files|
  {
    var n := |files| - 1;
    if i < n {
      assert files[..n][i] == files[i] && posts[..n][i] == posts[i];
      ListedAllFrom(files[..n], posts[..n], i, e);
    }
  }

  /** The per-file step of the list builder, run over the manifest in order. */
  method BuildEntries(files: seq<string>, posts: seq<FetchOutcome>) returns (entries: seq<Entry>)
    requires |files| == |posts|
    ensures entries == Listed(files, posts)
  {
    entries := [];
    for i := 0 to |files|
      invariant entries == Listed(files[..i], posts[..i])
    {
      assert files[..i + 1][..i] == files[..i] && posts[..i + 1][..i] == posts[..i];
      entries := entries + EntryOf(files[i], posts[i]);
    }
    assert files[..|files|] == files && posts[..|posts|] == posts;
  }

  // ---------------------------------------------------------------------------
  // The page
  // ---------------------------------------------------------------------------

  class Page {
    var listHidden: bool   // `post-list-page` has the class `hidden`
    var postHidden: bool   // `post-page` has the class `hidden`
    var content: string    // the HTML of `post-content`
    var list: ListPanel    // the `post-list` container
    var wired: bool        // the manifest was requested and the click handlers registered
    const render: string -> string

    function State(): View
      reads this
    {
      View(listHidden, postHidden, content)
    }

    /**
     * The document-loaded handler. `markup` is what the host page shows
     * before any script runs. Opened from the file system, the page only
     * writes a notice and wires nothing.
     */
    constructor (protocol: string, markup: View, render: string -> string)
      ensures this.render == render && list == FromMarkup
      ensures protocol == "file:" ==> State() == markup.(content := FileProtocolNotice) && !wired
      ensures protocol != "file:" ==> State() == markup && wired
    {
      listHidden, postHidden := markup.listHidden, markup.postHidden;
      this.render := render;
      list := FromMarkup;
      if protocol == "file:" {
        content := FileProtocolNotice;
        wired := false;
      } else {
        content := markup.content;
        wired := true;
      }
    }

    /** The manifest request settles; each post in it is requested in turn. */
    method LoadManifest(outcome: ManifestOutcome, posts: seq<FetchOutcome>)
      requires wired
      requires outcome.Manifest? ==> |posts| == |outcome.files|
      modifies this`list
      ensures outcome.Manifest? ==> list == Listing(Listed(outcome.files, posts))
      ensures outcome.ManifestFailed? ==> list == LoadError(ManifestErrorHtml(outcome.reason))
    {
      match outcome
      case ManifestFailed(reason) =>
        list := LoadError(ManifestErrorHtml(reason));
      case Manifest(files) =>
        var entries := BuildEntries(files, posts);
        list := Listing(entries);
    }

    /** Either back button is clicked. */
    method ClickBack(control: BackControl)
      requires wired
      modifies this`listHidden, this`postHidden
      ensures State() == Step(old(State()), Back(control), render)
    {
      postHidden := true;
      listHidden := false;
    }

    /** `loadPost(filename)` up to the `await` of its request: the placeholder goes up. */
    method StartLoad(filename: string)
      requires wired
      modifies this`content
      ensures State() == Step(old(State()), Start(filename), render)
    {
      content := LoadingHtml(filename);
    }

    /** The request of a started `loadPost` settles with `outcome`, and the rest of the call runs. */
    method SettleLoad(outcome: FetchOutcome)
      requires wired
      modifies this`content, this`listHidden, this`postHidden
      ensures State() == Step(old(State()), Settle(outcome), render)
    {
      match outcome
      case Fetched(ok, body) =>
        if !ok {
          content := ErrorHtml(PostNotFound);
        } else {
          content := render(body);
          listHidden := true;
          postHidden := false;
        }
      case FetchFailed(message) =>
        content := ErrorHtml(message);
    }

    /** `loadPost(filename)` whose request settles with `outcome` before anything else happens. */
    method LoadPost(filename: string, outcome: FetchOutcome)
      requires wired
      modifies this`content, this`listHidden, this`postHidden
      ensures State() == Step(Step(old(State()), Start(filename), render), Settle(outcome), render)
    {
      StartLoad(filename);
      SettleLoad(outcome);
    }

    /** A link of the post list is clicked. */
    method ClickEntry(i: nat, outcome: FetchOutcome)
      requires wired && list.Listing? && i < |list.entries|
      modifies this`content, this`listHidden, this`postHidden
      ensures State() == Step(Step(old(State()), Start(list.entries[i].file), render), Settle(outcome), render)
    {
      LoadPost(list.entries[i].file, outcome);
    }
  }

  // ---------------------------------------------------------------------------
  // The two-post example manifest: one post with a heading, one without
  // ---------------------------------------------------------------------------

  lemma {:induction false} ExampleManifest()
    ensures Listed(["a.md", "b.md"], [Fetched(true, "# First\nbody"), Fetched(true, "no heading here")])
         == [Entry("a.md", "First"), Entry("b.md", "b.md")]
  {
    ListedPair("a.md", "b.md", Fetched(true, "# First\nbody"), Fetched(true, "no heading here"));
    Title.FirstLineHeading();
    Title.NoHeadingFallsBack();
  }

  lemma {:induction false} ListedPair(f0: string, f1: string, o0: FetchOutcome, o1: FetchOutcome)
    ensures Listed([f0, f1], [o0, o1]) == EntryOf(f0, o0) + EntryOf(f1, o1)
  {
    assert [f0, f1][..1] == [f0] && [o0, o1][..1] == [o0];
    assert [f0][..0] == [] && [o0][..0] == [];
  }
}
