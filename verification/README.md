# Blog viewer: title extraction and the two-panel page

The blog viewer is one browser script, `script.js`. It lists the markdown
posts named in `posts/posts.json`, titles each one by its first level-1
heading, and toggles between a list page and a post page. This project models
the script's two parts with stated behaviour and proves properties of them:

- `Title` (`title.dfy`) models the expression `mdText.match(/^#\s+(.*)/m)` and
  its fallback to the file name, as pure functions over `string`.
  `IsLineTerm` is the ECMAScript LineTerminator set: LF, CR, U+2028 and U+2029.
  `IsWs` is the full ECMAScript `\s` set: TAB, VT, FF, U+FEFF, the Zs space
  separators and every line terminator. `FindHeading` tries each position in
  turn, as the regular-expression engine does. It accepts a position that
  starts a line and holds `#` followed by one whitespace character.
  `SkipWs` is the greedy `\s+`, which also runs across line breaks.
  `LineEnd` is where `.*` stops.
- `PostBrowser` (`post_browser.dfy`) models the page controller. The
  `Page` class holds the two `hidden` flags, the HTML of the post content
  area, the list container and whether the handlers were wired. Its methods
  are the document-loaded handler (constructor) with its `file:` guard, the
  manifest load, the two back buttons, `loadPost`, and the click on a list
  link. `loadPost` is asynchronous, so it is split in two: `StartLoad`
  writes the placeholder, and `SettleLoad` runs the rest once the request
  settles. Any events may come in between, including other loads.
  `ClickBack`, `StartLoad`, `SettleLoad`, `LoadPost` and `ClickEntry` are
  proved against the pure transition function `Step` on a `View` value.
  The constructor states its effect on the page directly. `LoadManifest`
  is proved against `Listed` (the post list). The properties are proved as
  lemmas about `Step`, `Run` (a sequence of events) and `Listed`.

Requests are not made. Each request is replaced by its outcome, passed as a
parameter: `FetchOutcome` for a post and `ManifestOutcome` for the manifest.
The markdown renderer (`marked.parse`) is the function-valued field
`Page.render`. The model knows nothing about it except that it is a function.

Some of the code's behaviour differs from what a reader of the page would
expect. The model follows the code:

- One might expect a failed post load to switch to the post page anyway,
  to show the error. In the code (script.js:88-90) the failure path only rewrites
  the content area, so both panels keep their visibility (`FinishLoad`,
  `FailedLoadKeepsPanels`).
- One might expect a post whose request fails to be left out of the list.
  The list builder (script.js:28-31) never looks at the response status, so a
  post that answers with an error status is still listed. Its title comes
  from the error body, or is the file name. Only a rejected request is
  skipped (`Listed`).
- One might expect a title with no surrounding whitespace. `.*` keeps
  trailing spaces (`TrailingSpacesKept`). Leading whitespace is consumed by
  `\s+`, even across line breaks, so `"# \n## Sub"` has the title `"## Sub"`
  (`EmptyHeadingTakesNextLine`).

## Model

| member | source | states |
|---|---|---|
| `Title.CharClasses` | script.js:30 | the classes behind `\s` and `.`: among ASCII characters `\s` is exactly TAB, LF, VT, FF, CR and space, and the line terminators are exactly LF and CR; every line terminator is whitespace |
| `Title.SkipWs` | script.js:30 | `\s+` is greedy: the run it stops at holds only whitespace, and the next character is not whitespace (or the text ends) |
| `Title.LineEnd` | script.js:30 | `.*` stops at the first line terminator at or after its start, or at the end of the text; nothing before it is a line terminator |
| `Title.CaptureAt` | script.js:30 | the captured title holds no line terminator and is empty or starts with a non-whitespace character; it is empty only when everything after the `#` is whitespace |
| `Title.FindHeading` | script.js:30 | the match position is the earliest line start holding `#` followed by whitespace; there is none exactly when no position matches |
| `Title.ExtractTitle` | script.js:30-31 | without any line that starts with `#` and whitespace, the title is the file name unchanged; any other title holds no line terminator and is empty or starts with a non-whitespace character |
| `Title.CaptureAtIsTheCapture` | script.js:30 | the capture is exactly the text of the declarative reading of `#\s+(.*)`: after a maximal whitespace run, up to a line terminator or the end; no other text satisfies that reading |
| `Title.TitleFromEarliestHeading` | script.js:30-31 | if some line begins with `#` and whitespace, the title is the capture at the earliest such line |
| `Title.NonHeadingLineSkipped` | script.js:30 | a line starting with `##`, with `#` and a non-whitespace character, or without `#` is never the title line: putting it in front of a text keeps that text's title |
| `Title.HeadingRoundTrip` | script.js:30-31 | writing a title as a `# ` heading line and extracting it gives the title back, whatever follows on the next lines |
| `Title.FirstLineHeading` | script.js:30-31 | a text whose first line is `# First` has the title `First`, with no surrounding whitespace |
| `Title.NoHeadingFallsBack` | script.js:31 | a text without any heading has its file name as its title |
| `Title.EmptyHeadingTakesNextLine` | script.js:30 | `"# \n## Sub"` has the title `"## Sub"`, because `\s+` crosses the line break |
| `Title.TrailingSpacesKept` | script.js:30 | `"# Hello  "` has the title `"Hello  "`, trailing spaces kept |
| `PostBrowser.OnBack` | script.js:58-68 | each back handler shows the list page, hides the post page and leaves the content unchanged |
| `PostBrowser.ShowLoading` | script.js:70 | the start of `loadPost` puts the "Loading" placeholder for the file in the content area and leaves the panels as they were |
| `PostBrowser.FinishLoad` | script.js:71-90 | an ok response shows the post page with the rendered body; a not-ok response writes the "Post not found" error; a rejected request writes its message; on both failures the panels are unchanged |
| `PostBrowser.Step` | script.js:58-91 | one event: a back click ends on the list page with the content kept; the start of a load writes the placeholder and keeps the panels; a settling request acts as `FinishLoad` says |
| `PostBrowser.Run` | script.js:58-91 | from a state where exactly one panel is visible, every sequence of back clicks, load starts and settling requests keeps exactly one visible |
| `PostBrowser.BackControlsAgree` | script.js:58-68 | the two back buttons have identical effect |
| `PostBrowser.BackIdempotent` | script.js:58-68 | going back twice, by either button, has the same effect as going back once |
| `PostBrowser.FailedLoadKeepsPanels` | script.js:72-90 | after any history, a request that is rejected or answers with an error status leaves both panel flags as they were |
| `PostBrowser.BackAfterAnything` | script.js:58-68 | after any history, a back click shows the list page and keeps the content |
| `PostBrowser.PlaceholderUntilSettled` | script.js:69-72 | after a load starts, its "Loading" placeholder stays in the content area through any number of back clicks until its request settles |
| `PostBrowser.LastSettledWins` | script.js:69-91 | with two loads in flight, the request that settles last decides the page, even if its load was started first |
| `PostBrowser.EntryOf` | script.js:27-48 | one manifest file adds at most one entry: one exactly when its request produced a response, whatever the status; the entry holds that file and the title extracted from the body |
| `PostBrowser.Listed` | script.js:26-49 | the list has at most as many entries as the manifest has files |
| `PostBrowser.ListedCount` | script.js:26-49 | the list has exactly as many entries as there are manifest files whose request produced a response |
| `PostBrowser.ListedExactly` | script.js:26-49 | an entry is listed exactly when some manifest file got a response, whatever its status; the entry holds that file and the title extracted from the response body |
| `PostBrowser.BuildEntries` | script.js:24-49 | the per-file loop over the manifest builds exactly `Listed` |
| `PostBrowser.ExampleManifest` | script.js:26-45 | the manifest `a.md` ("# First\nbody") and `b.md` ("no heading here") lists `a.md` as "First" and `b.md` as "b.md" |
| `PostBrowser.Page.constructor` | script.js:1-18 | under the `file:` protocol only the notice is written: no handlers wired, the list untouched, the panels as in the markup; otherwise the page is wired and unchanged |
| `PostBrowser.Page.LoadManifest` | script.js:21-55 | a parsed manifest appends the list `Listed` gives; a failure replaces the list container with the "Failed to load posts.json" error |
| `PostBrowser.Page.ClickBack` | script.js:58-68 | a back click changes the panels as `Step` says for `Back` |
| `PostBrowser.Page.StartLoad` | script.js:69-70 | the start of `loadPost` changes the content as `Step` says for `Start` |
| `PostBrowser.Page.SettleLoad` | script.js:71-90 | a settling request changes the panels and the content as `Step` says for `Settle` |
| `PostBrowser.Page.LoadPost` | script.js:69-91 | `loadPost` with nothing in between its start and its settling is `Start` followed by `Settle` |
| `PostBrowser.Page.ClickEntry` | script.js:39-42 | clicking a list link loads that entry's file |

## Left out

- Requests (`fetch`, `res.json()`, `res.text()`) are not modelled. Each becomes the outcome it produced, given as a parameter.
- `marked.setOptions` and `marked.parse` (script.js:76-82) belong to a foreign library. Rendering is an arbitrary function fixed when the page is built; the options passed are not modelled.
- The order of list entries: the source starts every post request at once and appends each entry when its request settles. The model processes the files one after the other in manifest order (`BuildEntries`), so the completion order is not modelled.
- `window.scrollTo`, `console.error`, and the `ul`/`li`/`a` elements behind each entry. The list is modelled as its entries, each with a file and a title.
- JavaScript strings are UTF-16 code units and may hold lone surrogates. Here a `char` is a Unicode scalar value. Neither `\s` nor the line terminators contain a surrogate, so the extracted title is the same for every text both can represent.
- A manifest that parses but is not an array of strings, or an exception thrown by the renderer, is not modelled. Manifest parsing is part of `ManifestOutcome`, and the renderer is total.
