# Tribler: remote search aggregation and the dependency list

This project models two small parts of Tribler in Dafny and proves properties of them.

**The search results widget** (`SearchResults`, in `search_results.dfy`). The GUI sends a query to the
network, which answers with a request uuid and the set of peers it asked. Each peer may then send a
batch of results. The widget:

- drops a query that repeats the last one sent within one second (the debounce);
- drops a query whose full-text form is empty;
- keeps one `SearchRequest` and folds into it every response that carries the current uuid;
- shows the results once every expected peer has answered, or when the timeout fires or the user
  presses the button.

After that, late responses are dropped. The Qt widget is a class whose fields stand for what the
code reads and writes:

- `lastSearchQuery` and `lastSearchTime` (milliseconds);
- `searchRequest`;
- `page`, the page on show (Other, Loading or Results);
- `timerRunning`, for the timeout progress bar;
- `stateLabel`, the three counts of the loading label;
- `resultsTitle`, the title given to the results model;
- `sentQueries`, the remote queries handed to the network.

`SearchRequest` is a datatype. The in-place `peers_complete.add` and `remote_results.append` become
replacing the field with `WithResponse(peer, batch)`. Scenario methods at the end of the file prove,
from the method contracts alone, the debounce timings, the all-peers-answer run and the timeout run.

**The dependency list** (`Dependencies`, in `dependencies.dfy`):

- which requirements file a scope reads;
- how library names come out of a requirements text. The text is split at every `'\n'`, empty lines
  are dropped, each line is cut at its first `>`, `<`, `=` or `~`, and `Faker` and `sentry-sdk` get
  their import names.

The regular expression becomes a scan of the characters. A line of blanks is kept as it is and
nothing is trimmed. A line such as `>=1.0` yields the empty name. `wrappers.dfy` holds `Option` and
`Result`.

Two points where the code departs from what its messages or a reader would expect; the model follows the code:

- The debounce window is one second (`< 1` on `time.time()`), although the log message says 500 ms.
- One would expect answered peers always to be among the expected ones. The code does not check that
  a responding peer was expected (`searchresultswidget.py:145-146`), so that inclusion is proved only when
  every answer comes from an expected peer (`AnsweredWithinExpected`). `UnexpectedPeerPreventsCompletion`
  shows what happens otherwise.

## Model

| member | source | states |
|---|---|---|
| `SearchResults.SearchRequest.WithResponse` | src/tribler/gui/widgets/searchresultswidget.py:145-147 | an answer adds its peer to the answered set, set-wise, and appends exactly one batch after the earlier ones, unchanged; uuid, query and expected peers are untouched |
| `SearchResults.SearchRequest.Complete` | src/tribler/gui/widgets/searchresultswidget.py:43-45 | a request is complete exactly when every expected peer has answered and no other peer has; the two counts then agree |
| `SearchResults.FormatSearchLoadingLabel` | src/tribler/gui/widgets/searchresultswidget.py:19-24 | the label counts the expected peers, the answered peers and the batches; the answered count is at most the total while only expected peers answer, and equals it once the request is complete |
| `SearchResults.NewSearchRequest` | src/tribler/gui/widgets/searchresultswidget.py:125 | a registered request has the given uuid and query, the peers of the list as a set, no answered peers and no results |
| `SearchResults.ResultsTitle` | src/tribler/gui/widgets/searchresultswidget.py:84-86 | a query under 50 characters follows "Search results for "; a longer one is cut to its first 50 characters followed by "..."; the title is always under 69 characters |
| `SearchResults.RepeatedPeerIsIdempotent` | src/tribler/gui/widgets/searchresultswidget.py:146-147 | a peer answering twice does not grow the answered set, but both batches are kept, in order, after the earlier ones |
| `SearchResults.LabelAfterResponse` | src/tribler/gui/widgets/searchresultswidget.py:19-24 | after an answer the label's total is the same, its batch count is one more, and its answered count is one more exactly when the peer is new |
| `SearchResults.AfterAnswersShape` | src/tribler/gui/widgets/searchresultswidget.py:145-147 | after any run of answers, the answered set is the old one plus the answering peers, and the batches are the old ones followed by the new ones in arrival order |
| `SearchResults.AnsweredWithinExpected` | src/tribler/gui/widgets/searchresultswidget.py:145-146 | answered peers stay within the expected peers when every answer comes from an expected peer |
| `SearchResults.UnexpectedPeerPreventsCompletion` | src/tribler/gui/widgets/searchresultswidget.py:43-45 | once an unexpected peer has answered, no further answers can make the request complete |
| `SearchResults.CompleteIffAllAnswered` | src/tribler/gui/widgets/searchresultswidget.py:43-45 | a fresh request becomes complete exactly when the peers that answered are precisely the expected ones |
| `SearchResults.SearchResultsWidget.constructor` | src/tribler/gui/widgets/searchresultswidget.py:58-61 | no last query, no last time and no request; no timer, label or title |
| `SearchResults.SearchResultsWidget.CheckCanShow` | src/tribler/gui/widgets/searchresultswidget.py:101-109 | a query is refused exactly when it equals the last query, a last time is set, and less than 1000 ms has passed since (a clock that went back counts); it reads the state and changes nothing |
| `SearchResults.SearchResultsWidget.Search` | src/tribler/gui/widgets/searchresultswidget.py:111-132 | returns true exactly when the debounce admits the query and its full-text form is not empty; it then records the query text and the time and sends the query; otherwise nothing changes |
| `SearchResults.SearchResultsWidget.RegisterRequest` | src/tribler/gui/widgets/searchresultswidget.py:119-131 | called only for a query that was sent, as the callback `search` creates; replaces the request with a fresh one for the uuid and peers; the label shows (peers, 0, 0); the timer starts and the loading page is shown |
| `SearchResults.SearchResultsWidget.ShowResults` | src/tribler/gui/widgets/searchresultswidget.py:74-95 | with no request, nothing changes; otherwise the timer stops, the results get the title of the request's query, and the results page is shown |
| `SearchResults.SearchResultsWidget.Accepts` | src/tribler/gui/widgets/searchresultswidget.py:139-143 | a response is refused with no request, with no uuid (the `get` gives None) or another request's uuid, and once the results are on show |
| `SearchResults.SearchResultsWidget.UpdateLoadingPage` | src/tribler/gui/widgets/searchresultswidget.py:138-150 | drops a response exactly when there is no request, its uuid is not the current one, or the results are on show. A response with no peer raises, changing nothing. Any other response is folded in and the label shows the new counts. A response that completes the request stops the timer and shows the results |
| `SearchResults.DeliverResponses` | src/tribler/gui/widgets/searchresultswidget.py:138-150 | over any run of responses with no new registration, at most one finalizes, and none does once the results are on show |
| `SearchResults.RepeatedQuery` | src/tribler/gui/widgets/searchresultswidget.py:101-120 | a query repeated after it was sent is sent again exactly when at least 1000 ms separate the two calls |
| `SearchResults.DebounceScenario` | src/tribler/gui/widgets/searchresultswidget.py:101-120 | "abc" is sent at 0 ms, dropped at 500 ms and sent again at 1200 ms |
| `SearchResults.AllPeersAnswerScenario` | src/tribler/gui/widgets/searchresultswidget.py:138-150 | with peers A, B, C answering B, A, C, only C's answer finalizes; the batches are in arrival order; a straggler is dropped |
| `SearchResults.ThreePeersAnswer` | src/tribler/gui/widgets/searchresultswidget.py:145-149 | for expected peers A, B, C answering B, A, C, only the third answer completes the request, and the batches are in arrival order |
| `SearchResults.TwoOfThreePeersAnswer` | src/tribler/gui/widgets/searchresultswidget.py:145-149 | after A and B of A, B, C have answered, the request is incomplete and the label counts are (3, 2, 2) |
| `SearchResults.TimeoutScenario` | src/tribler/gui/widgets/searchresultswidget.py:67-68 | a response for a superseded uuid is dropped; after A and B answer and the timeout fires, two batches remain, the label reads (3, 2, 2), and C's late answer is dropped |
| `Dependencies.PathToRequirementsTxt` | src/tribler/core/utilities/dependencies.py:28-34 | core selects requirements-core.txt and gui selects requirements.txt, both directly under the root; any other value is an AttributeError |
| `Dependencies.ScopesReadDistinctFiles` | src/tribler/core/utilities/dependencies.py:29-33 | the two scopes read different files in the same directory |
| `Dependencies.GetDependencies` | src/tribler/core/utilities/dependencies.py:27-36 | fails with AttributeError exactly for a value outside the enumeration, whatever the files hold; otherwise it gives the libraries of the selected file's text |
| `Dependencies.SplitLines` | src/tribler/core/utilities/dependencies.py:41 | the pieces hold no newline, there is at least one, and joined with newlines they give back the text |
| `Dependencies.SplitLinesAppend` | src/tribler/core/utilities/dependencies.py:41 | a newline in the text separates the pieces of the two sides |
| `Dependencies.SplitLinesOfLine` | src/tribler/core/utilities/dependencies.py:41 | a text without newlines is one piece |
| `Dependencies.SplitJoinLines` | src/tribler/core/utilities/dependencies.py:41 | splitting undoes joining for pieces without newlines |
| `Dependencies.PackageName` | src/tribler/core/utilities/dependencies.py:42 | the name is a prefix of the line with no version operator in it; if shorter than the line, the next character is an operator |
| `Dependencies.PackageNameUpToOperator` | src/tribler/core/utilities/dependencies.py:42 | a line made of an operator-free name followed by text that starts with an operator is cut to exactly that name |
| `Dependencies.ImportName` | src/tribler/core/utilities/dependencies.py:20-23 | Faker becomes faker, sentry-sdk becomes sentry_sdk, and every other name is unchanged |
| `Dependencies.ImportNameFollowsMapping` | src/tribler/core/utilities/dependencies.py:20-23 | the mapping's keys are exactly Faker and sentry-sdk; a package is renamed if and only if it is a key; renaming twice is renaming once |
| `Dependencies.LibraryOfLine` | src/tribler/core/utilities/dependencies.py:42-43 | a line's library is a prefix of the line unless its package is a renamed one, and holds no version operator |
| `Dependencies.NonEmptyLines` | src/tribler/core/utilities/dependencies.py:41 | the result holds exactly the lines of the input that are not empty, and none that is empty; it is no longer than the input |
| `Dependencies.NonEmptyLinesCounts` | src/tribler/core/utilities/dependencies.py:41 | every non-empty line is kept as often as it occurs in the input, and every empty one is dropped |
| `Dependencies.NonEmptyLinesAppend` | src/tribler/core/utilities/dependencies.py:41 | filtering keeps the order of the lines: the non-empty lines of two lists are those of the first followed by those of the second |
| `Dependencies.ExtractLibrariesFromRequirements` | src/tribler/core/utilities/dependencies.py:39-43 | no extracted name holds a newline |
| `Dependencies.ExtractLibrariesPerLine` | src/tribler/core/utilities/dependencies.py:41-43 | there is one name per non-empty line, and the i-th name is the library of the i-th non-empty line |
| `Dependencies.ExtractedNamesHaveNoOperator` | src/tribler/core/utilities/dependencies.py:42-43 | no extracted name holds a version operator |
| `Dependencies.ExtractLibrariesAppend` | src/tribler/core/utilities/dependencies.py:41 | the names of two texts joined by a newline are those of the first text followed by those of the second |
| `Dependencies.ExtractLibrariesOfLine` | src/tribler/core/utilities/dependencies.py:41-43 | a single line gives its renamed package name, or nothing when it is empty |
| `Dependencies.ExtractLibrariesTrailingNewline` | src/tribler/core/utilities/dependencies.py:41 | a trailing newline adds nothing |
| `Dependencies.ExtractLibrariesSkipsEmptyLine` | src/tribler/core/utilities/dependencies.py:41 | an empty line between two texts adds nothing |
| `Dependencies.ExtractLibrariesExample` | src/tribler/core/utilities/tests/test_dependencies.py:19-26 | 'PyQt5>=5.14\npsutil\n\nconfigobj\n' gives PyQt5, psutil, configobj |

## Left out

- Qt plumbing is not modelled: loading the `.ui` form, `setupUi`, `initialize` and its signal connections, the results page's content, `run_brain_dead_refresh` and `reset`. Only their effect on the page, the timer, the label counts and the title is kept. The page shown before the first request is assumed to be neither the loading page nor the results page.
- The label's text and `tr` translation are not modelled. The label is its three counts, and `tr` is the identity for the results title.
- The rest of the `SearchResultsModel` handed to the results page is not modelled: the full-text filter, the tags, the type filter and hide_xxx. So `hide_xxx` and `initialize` are left out.
- `TriblerNetworkRequest` is network I/O. A sent query is recorded in `sentQueries`, and the network's callback is the `RegisterRequest` method, called with the query whose search sent it: `RegisterRequest` requires that query to be among the sent ones, and `Valid` keeps the current request's query among them, so every scenario searches before it registers. The code handles no dispatch failure, so none is modelled.
- The timeout timer and its duration belong to Qt. `timerRunning` records only whether the timer runs, and its firing is a call to `ShowResults`.
- `time.time()` is an integer millisecond parameter `now` of `Search`. The Python reads the clock twice, in `check_can_show` and again when recording the time. The model uses one instant for both.
- `to_fts_query` and `Query` are not part of this model. `Search` takes whether the full-text form is empty, and a `Query` is a plain value.
- Logging is left out.
- `has_results` is a one-line test of `last_search_query` and is not modelled.
- Result items are opaque strings. Peers and uuids are strings.
- Reading the requirements file (`_get_pip_dependencies`, `Path.read_text`) is I/O. It is the parameter `readText` of `GetDependencies`. `Path(tribler.__file__).parent.parent.parent` is the parameter `root`. Read errors, such as a missing or undecodable file, which the Python raises as soon as `get_dependencies` is called, are not modelled: `readText` always gives a text.
- `GetDependencies` returns the list of names at once, whereas the Python is a lazy generator. Nothing in the extraction can fail, so only the timing of the work differs.
- The AttributeError's message text is not modelled.
- A Dafny `char` is a Unicode scalar value, so the 50-character cut of the title counts code points, as Python's `len` does. Python strings holding lone surrogates have no Dafny counterpart and are not modelled.
