/**
 * The search results widget of the GUI: it suppresses a repeated query,
 * dispatches a remote search, and folds the per-peer responses into one
 * `SearchRequest` until every expected peer has answered or the timeout
 * fires, when it switches to the page of results.
 *
 * Qt is reduced to a few fields: the page on show, whether the timeout
 * progress bar runs, the counts of the loading label and the title of the
 * results. The network's requests sent are recorded in `sentQueries`; its
 * callbacks are the methods `RegisterRequest` and `UpdateLoadingPage`.
 */
module SearchResults {
  import opened Wrappers

  type Uuid = string
  type PeerId = string
  /** One search result; its content plays no part here. */
  type ResultItem = string
  /** The results one response carries. */
  type Batch = seq<ResultItem>

  /** The time within which a repeated query is dropped, in milliseconds. */
  const Cooldown: int := 1000

  /** Results titles are cut at this many characters of the query. */
  const TitleLimit: nat := 50
  const TitlePrefix: string := "Search results for "
  const Ellipsis: string := "..."

  /**
   * A user query: the text as typed, its full-text part and its tags. Only
   * `originalQuery` is read here (the debounce and the results title); the
   * other two fields only carry the query's value, since whether the
   * full-text part is empty comes into `Search` as a flag of its own.
   */
  datatype Query = Query(originalQuery: string, ftsText: string, tags: set<string>)

  /** The pages of the widget's stack; `Other` is any page but these two. */
  datatype Page = Other | Loading | Results

  /** The counts shown by the loading label. */
  datatype LoadingLabel = LoadingLabel(totalPeers: nat, numCompletePeers: nat, numRemoteResults: nat)

  /**
   * One response of a peer, as the dictionary the network delivers. `None`
   * stands for a key that is absent; a key that is present never holds a
   * null value here.
   */
  datatype RemoteResults = RemoteResults(uuid: Option<Uuid>, peer: Option<PeerId>, results: Option<Batch>)

  /** What became of a response given to `UpdateLoadingPage`. */
  datatype Intake =
    | Dropped                  // no request, another request's uuid, or results already on show
    | MissingPeer              // accepted by the guard but without a "peer" key: a KeyError
    | Accepted(finalized: bool) // folded in; `finalized` when it completed the request

  /** The aggregate of a remote search in progress. */
  datatype SearchRequest = SearchRequest(
    uuid: Uuid,
    query: Query,
    peers: set<PeerId>,
    peersComplete: set<PeerId>,
    remoteResults: seq<Batch>)
  {
    /** Every expected peer has answered, and no other. */
    predicate Complete()
      ensures (exists p :: p in peers && p !in peersComplete) ==> !Complete()
      ensures (exists p :: p in peersComplete && p !in peers) ==> !Complete()
      ensures (forall p :: p in peers <==> p in peersComplete) ==> Complete()
      ensures Complete() ==> |peersComplete| == |peers|
    {
      peers == peersComplete
    }

    /** The request after `peer` answered with `batch`. */
    function WithResponse(peer: PeerId, batch: Batch): (r: SearchRequest)
      ensures r.uuid == uuid && r.query == query && r.peers == peers
      ensures peer in r.peersComplete && r.peersComplete - {peer} == peersComplete - {peer}
      ensures |r.remoteResults| == |remoteResults| + 1
      ensures r.remoteResults[..|remoteResults|] == remoteResults && r.remoteResults[|remoteResults|] == batch
    {
      this.(peersComplete := peersComplete + {peer}, remoteResults := remoteResults + [batch])
    }
  }

  /** A request as registered: the peers of the list, none of them answered, no results. */
  function NewSearchRequest(uuid: Uuid, query: Query, peers: seq<PeerId>): (r: SearchRequest)
    ensures r.uuid == uuid && r.query == query
    ensures forall p :: p in r.peers <==> p in peers
    ensures r.peersComplete == {} && r.remoteResults == []
  {
    SearchRequest(uuid, query, set p | p in peers, {}, [])
  }

  /** The counts `format_search_loading_label` shows for a request. */
  function FormatSearchLoadingLabel(req: SearchRequest): (l: LoadingLabel)
    ensures req.peersComplete <= req.peers ==> l.numCompletePeers <= l.totalPeers
    ensures req.Complete() ==> l.numCompletePeers == l.totalPeers
  {
    SubsetCardinality(req.peersComplete, req.peers);
    LoadingLabel(|req.peers|, |req.peersComplete|, |req.remoteResults|)
  }

  /** A subset has no more members than its superset. */
  lemma {:induction false} SubsetCardinality(a: set<PeerId>, b: set<PeerId>)
    ensures a <= b ==> |a| <= |b|
    decreases a
  {
    if a != {} && a <= b {
      var x :| x in a;
      SubsetCardinality(a - {x}, b - {x});
    }
  }

  /**
   * The title of the results: the query after a prefix when it is shorter
   * than 50 characters, else its first 50 characters and an ellipsis.
   */
  function ResultsTitle(q: string): (t: string)
    ensures |q| < TitleLimit ==> |t| == |TitlePrefix| + |q|
    ensures |q| < TitleLimit ==> t[..|TitlePrefix|] == TitlePrefix && t[|TitlePrefix|..] == q
    ensures |q| >= TitleLimit ==> |t| == TitleLimit + |Ellipsis| && t[..TitleLimit] == q[..TitleLimit]
    ensures |q| >= TitleLimit ==> t[TitleLimit..] == Ellipsis
    ensures |t| < |TitlePrefix| + TitleLimit
  {
    if |q| < TitleLimit then TitlePrefix + q else q[..TitleLimit] + Ellipsis
  }

  // ---------------------------------------------------------------------------
  // Properties of the aggregate
  // ---------------------------------------------------------------------------

  /** A repeated answer from one peer leaves the set of answered peers as it was. */
  lemma RepeatedPeerIsIdempotent(req: SearchRequest, peer: PeerId, b1: Batch, b2: Batch)
    ensures req.WithResponse(peer, b1).WithResponse(peer, b2).peersComplete == req.WithResponse(peer, b1).peersComplete
    ensures req.WithResponse(peer, b1).WithResponse(peer, b2).remoteResults == req.remoteResults + [b1, b2]
  {
  }

  /** How the loading label moves on an answer: one more batch, one more peer if it is new. */
  lemma LabelAfterResponse(req: SearchRequest, peer: PeerId, batch: Batch)
    ensures FormatSearchLoadingLabel(req.WithResponse(peer, batch)).totalPeers == FormatSearchLoadingLabel(req).totalPeers
    ensures FormatSearchLoadingLabel(req.WithResponse(peer, batch)).numRemoteResults == FormatSearchLoadingLabel(req).numRemoteResults + 1
    ensures FormatSearchLoadingLabel(req.WithResponse(peer, batch)).numCompletePeers
         == FormatSearchLoadingLabel(req).numCompletePeers + (if peer in req.peersComplete then 0 else 1)
  {
    var r := req.WithResponse(peer, batch);
    assert r.peersComplete == req.peersComplete + {peer};
    if peer !in req.peersComplete {
      assert r.peersComplete - {peer} == req.peersComplete;
    } else {
      assert r.peersComplete == req.peersComplete;
    }
  }

  /** One answer of a peer: the peer and the results it carried. */
  datatype Answer = Answer(peer: PeerId, batch: Batch)

  /** The request after the answers, taken in their order of arrival. */
  function AfterAnswers(req: SearchRequest, answers: seq<Answer>): SearchRequest
    decreases |answers|
  {
    if |answers| == 0 then req
    else AfterAnswers(req.WithResponse(answers[0].peer, answers[0].batch), answers[1..])
  }

  function PeersOf(answers: seq<Answer>): set<PeerId>
  {
    set a | a in answers :: a.peer
  }

  function BatchesOf(answers: seq<Answer>): seq<Batch>
  {
    seq(|answers|, i requires 0 <= i < |answers| => answers[i].batch)
  }

  /**
   * After a run of answers the uuid, query and expected peers are as they
   * were, the answering peers have joined `peersComplete`, and the batches
   * follow the earlier ones in the order they arrived.
   */
  lemma {:induction false} AfterAnswersShape(req: SearchRequest, answers: seq<Answer>)
    ensures AfterAnswers(req, answers).uuid == req.uuid
    ensures AfterAnswers(req, answers).query == req.query
    ensures AfterAnswers(req, answers).peers == req.peers
    ensures AfterAnswers(req, answers).peersComplete == req.peersComplete + PeersOf(answers)
    ensures AfterAnswers(req, answers).remoteResults == req.remoteResults + BatchesOf(answers)
    decreases |answers|
  {
    if |answers| > 0 {
      var next := req.WithResponse(answers[0].peer, answers[0].batch);
      AfterAnswersShape(next, answers[1..]);
      assert next.peersComplete == req.peersComplete + {answers[0].peer};
      assert PeersOf(answers) == {answers[0].peer} + PeersOf(answers[1..]) by {
        assert answers == [answers[0]] + answers[1..];
      }
      assert next.remoteResults == req.remoteResults + [answers[0].batch];
      assert BatchesOf(answers) == [answers[0].batch] + BatchesOf(answers[1..]);
    }
  }

  /**
   * The source does not check that an answering peer was expected, so
   * `peersComplete` stays within `peers` only when every answer comes from
   * an expected peer.
   */
  lemma AnsweredWithinExpected(req: SearchRequest, answers: seq<Answer>)
    requires req.peersComplete <= req.peers
    requires forall i :: 0 <= i < |answers| ==> answers[i].peer in req.peers
    ensures AfterAnswers(req, answers).peersComplete <= AfterAnswers(req, answers).peers
  {
    AfterAnswersShape(req, answers);
  }

  /** An unexpected peer's answer breaks the inclusion, and the request can then never complete. */
  lemma UnexpectedPeerPreventsCompletion(req: SearchRequest, peer: PeerId, batch: Batch, answers: seq<Answer>)
    requires peer !in req.peers
    ensures !AfterAnswers(req.WithResponse(peer, batch), answers).Complete()
  {
    AfterAnswersShape(req.WithResponse(peer, batch), answers);
  }

  /** A fresh request is complete after a run of answers exactly when those answers came from precisely the expected peers. */
  lemma CompleteIffAllAnswered(req: SearchRequest, answers: seq<Answer>)
    requires req.peersComplete == {}
    ensures AfterAnswers(req, answers).Complete() <==> PeersOf(answers) == req.peers
  {
    AfterAnswersShape(req, answers);
  }

  // ---------------------------------------------------------------------------
  // The widget
  // ---------------------------------------------------------------------------

  class SearchResultsWidget {
    var lastSearchQuery: Option<string>
    var lastSearchTime: Option<int>
    var searchRequest: Option<SearchRequest>
    /** The page the widget's stack shows (`currentWidget()`). */
    var page: Page
    /** Whether the timeout progress bar runs. */
    var timerRunning: bool
    /** The counts the loading label shows, once it has been set. */
    var stateLabel: Option<LoadingLabel>
    /** The title given to the results page, once results have been shown. */
    var resultsTitle: Option<string>
    /** The remote queries sent to the network, oldest first. */
    var sentQueries: seq<Query>

    /**
     * The label shows the current request's counts; the timer runs only
     * while the loading page is on show; a page of search is on show only
     * once a request has been registered; a registered request is for a
     * query that was sent.
     */
    ghost predicate Valid()
      reads this
    {
      && (searchRequest.Some? ==> stateLabel == Some(FormatSearchLoadingLabel(searchRequest.value)))
      && (timerRunning ==> page == Loading)
      && (page != Other ==> searchRequest.Some?)
      && (searchRequest.Some? ==> searchRequest.value.query in sentQueries)
    }

    constructor ()
      ensures Valid()
      ensures lastSearchQuery == None && lastSearchTime == None && searchRequest == None
      ensures page == Other && !timerRunning && stateLabel == None && resultsTitle == None && sentQueries == []
    {
      lastSearchQuery, lastSearchTime, searchRequest := None, None, None;
      page, timerRunning := Other, false;
      stateLabel, resultsTitle, sentQueries := None, None, [];
    }

    /**
     * `check_can_show`: a query is dropped when it repeats the last one
     * sent and less than the cooldown has passed since (a clock that went
     * back counts as less).
     */
    function CheckCanShow(query: string, now: int): (r: bool)
      reads this
      ensures lastSearchQuery != Some(query) ==> r
      ensures lastSearchTime == None ==> r
      ensures lastSearchTime.Some? && now >= lastSearchTime.value + Cooldown ==> r
      ensures lastSearchQuery == Some(query) && lastSearchTime.Some? && now < lastSearchTime.value + Cooldown ==> !r
    {
      if lastSearchQuery == Some(query) && lastSearchTime.Some? && now - lastSearchTime.value < Cooldown then false
      else true
    }

    /**
     * `search`: a query that passes the debounce and whose full-text form
     * (`ftsEmpty` tells whether it is empty) is not empty is recorded as the
     * last one, with the time, and sent to the network.
     */
    method Search(query: Query, ftsEmpty: bool, now: int) returns (searched: bool)
      requires Valid()
      modifies this
      ensures Valid()
      ensures searched <==> old(CheckCanShow(query.originalQuery, now)) && !ftsEmpty
      ensures searched ==> lastSearchQuery == Some(query.originalQuery) && lastSearchTime == Some(now)
      ensures searched ==> sentQueries == old(sentQueries) + [query]
      ensures !searched ==> lastSearchQuery == old(lastSearchQuery) && lastSearchTime == old(lastSearchTime)
      ensures !searched ==> sentQueries == old(sentQueries)
      ensures searchRequest == old(searchRequest) && page == old(page) && timerRunning == old(timerRunning)
      ensures stateLabel == old(stateLabel) && resultsTitle == old(resultsTitle)
    {
      if !CheckCanShow(query.originalQuery, now) {
        return false;
      }
      if ftsEmpty {
        return false;
      }
      lastSearchQuery := Some(query.originalQuery);
      lastSearchTime := Some(now);
      sentQueries := sentQueries + [query];
      return true;
    }

    /**
     * `register_request`, the network's answer to a sent query (the
     * callback exists only once `search` has sent its query): a new
     * request replaces any earlier one, the label shows its counts, the
     * timer starts and the loading page is shown.
     */
    method RegisterRequest(query: Query, uuid: Uuid, peers: seq<PeerId>)
      requires Valid()
      requires query in sentQueries
      modifies this
      ensures Valid()
      ensures searchRequest == Some(NewSearchRequest(uuid, query, peers))
      ensures stateLabel == Some(LoadingLabel(|NewSearchRequest(uuid, query, peers).peers|, 0, 0))
      ensures timerRunning && page == Loading
      ensures lastSearchQuery == old(lastSearchQuery) && lastSearchTime == old(lastSearchTime)
      ensures resultsTitle == old(resultsTitle) && sentQueries == old(sentQueries)
    {
      var req := NewSearchRequest(uuid, query, peers);
      searchRequest := Some(req);
      stateLabel := Some(FormatSearchLoadingLabel(req));
      timerRunning := true;
      page := Loading;
    }

    /**
     * `show_results`, called by the timeout and by the button: nothing
     * without a request; otherwise the timer stops, the results get their
     * title and the results page is shown.
     */
    method ShowResults()
      requires Valid()
      modifies this
      ensures Valid()
      ensures old(searchRequest) == None ==>
        page == old(page) && timerRunning == old(timerRunning) && resultsTitle == old(resultsTitle)
      ensures old(searchRequest).Some? ==>
        && !timerRunning && page == Results
        && resultsTitle == Some(ResultsTitle(old(searchRequest).value.query.originalQuery))
      ensures searchRequest == old(searchRequest) && stateLabel == old(stateLabel)
      ensures lastSearchQuery == old(lastSearchQuery) && lastSearchTime == old(lastSearchTime)
      ensures sentQueries == old(sentQueries)
    {
      if searchRequest == None {
        return;
      }
      timerRunning := false;
      resultsTitle := Some(ResultsTitle(searchRequest.value.query.originalQuery));
      page := Results;
    }

    /** The guard of `update_loading_page`: a request, its uuid, and the results not yet on show. */
    predicate Accepts(response: RemoteResults)
      reads this
      ensures searchRequest.None? ==> !Accepts(response)
      ensures response.uuid.None? ==> !Accepts(response)
      ensures page == Results ==> !Accepts(response)
      ensures Accepts(response) ==> response.uuid.value == searchRequest.value.uuid
    {
      searchRequest.Some? && response.uuid == Some(searchRequest.value.uuid) && page != Results
    }

    /**
     * `update_loading_page`, one response of a peer: it is dropped without
     * a request, for another request's uuid, or once the results are on
     * show. Otherwise its peer joins the answered ones and its results
     * (none when absent) follow the earlier batches; a response that
     * completes the request shows the results.
     */
    method UpdateLoadingPage(response: RemoteResults) returns (outcome: Intake)
      requires Valid()
      modifies this
      ensures Valid()
      ensures outcome.Dropped? <==> !old(Accepts(response))
      ensures outcome.MissingPeer? <==> old(Accepts(response)) && response.peer == None
      ensures !outcome.Accepted? ==> unchanged(this)
      ensures outcome.Accepted? ==>
        && response.peer.Some?
        && searchRequest == Some(old(searchRequest).value.WithResponse(response.peer.value, response.results.GetOr([])))
        && outcome.finalized == searchRequest.value.Complete()
      ensures outcome == Accepted(false) ==>
        page == old(page) && timerRunning == old(timerRunning) && resultsTitle == old(resultsTitle)
      ensures outcome == Accepted(true) ==>
        && page == Results && !timerRunning
        && resultsTitle == Some(ResultsTitle(searchRequest.value.query.originalQuery))
      ensures lastSearchQuery == old(lastSearchQuery) && lastSearchTime == old(lastSearchTime)
      ensures sentQueries == old(sentQueries)
    {
      if !Accepts(response) {
        return Dropped;
      }
      if response.peer == None {
        return MissingPeer;
      }
      var req := searchRequest.value.WithResponse(response.peer.value, response.results.GetOr([]));
      searchRequest := Some(req);
      stateLabel := Some(FormatSearchLoadingLabel(req));
      if req.Complete() {
        ShowResults();
        return Accepted(true);
      }
      return Accepted(false);
    }
  }

  // ---------------------------------------------------------------------------
  // What callers can rely on
  // ---------------------------------------------------------------------------

  /** How many of the outcomes finalized a request. */
  function Finalizations(outcomes: seq<Intake>): nat
  {
    if |outcomes| == 0 then 0
    else Finalizations(outcomes[..|outcomes| - 1]) + (if outcomes[|outcomes| - 1] == Accepted(true) then 1 else 0)
  }

  /**
   * Responses delivered one at a time, as the event loop does, with no new
   * registration in between: at most one of them finalizes the request, and
   * none does once the results are on show.
   */
  method DeliverResponses(w: SearchResultsWidget, responses: seq<RemoteResults>) returns (outcomes: seq<Intake>)
    requires w.Valid()
    modifies w
    ensures w.Valid()
    ensures |outcomes| == |responses|
    ensures Finalizations(outcomes) <= 1
    ensures Finalizations(outcomes) == 1 ==> w.page == Results
    ensures old(w.page) == Results ==> forall i :: 0 <= i < |outcomes| ==> outcomes[i] == Dropped
  {
    outcomes := [];
    while |outcomes| < |responses|
      invariant w.Valid()
      invariant |outcomes| <= |responses|
      invariant Finalizations(outcomes) <= 1
      invariant Finalizations(outcomes) == 1 ==> w.page == Results
      invariant old(w.page) == Results ==> w.page == Results
      invariant old(w.page) == Results ==> forall i :: 0 <= i < |outcomes| ==> outcomes[i] == Dropped
    {
      var outcome := w.UpdateLoadingPage(responses[|outcomes|]);
      assert (outcomes + [outcome])[..|outcomes|] == outcomes;
      outcomes := outcomes + [outcome];
    }
  }

  /**
   * A query repeated at `t2` after it was sent at `t1` is sent again
   * exactly when the cooldown has passed.
   */
  method RepeatedQuery(q: Query, t1: int, t2: int) returns (first: bool, second: bool, sent: nat)
    ensures first
    ensures second <==> t2 - t1 >= Cooldown
    ensures sent == if second then 2 else 1
  {
    var w := new SearchResultsWidget();
    first := w.Search(q, false, t1);
    second := w.Search(q, false, t2);
    sent := |w.sentQueries|;
  }

  /** "abc" sent at 0 ms, dropped at 500 ms, sent again at 1200 ms. */
  method DebounceScenario() returns (at0: bool, at500: bool, at1200: bool, sent: seq<string>)
    ensures at0 && !at500 && at1200
    ensures sent == ["abc", "abc"]
  {
    var w := new SearchResultsWidget();
    var q := Query("abc", "abc", {});
    at0 := w.Search(q, false, 0);
    at500 := w.Search(q, false, 500);
    at1200 := w.Search(q, false, 1200);
    sent := seq(|w.sentQueries|, i requires 0 <= i < |w.sentQueries| reads w => w.sentQueries[i].originalQuery);
  }

  /**
   * Peers A, B and C are expected and answer in the order B, A, C: the
   * results are shown after C's answer, once, with the batches in the
   * order of arrival; a straggler is then dropped.
   */
  method AllPeersAnswerScenario(q: Query, u: Uuid, a: PeerId, b: PeerId, c: PeerId, bA: Batch, bB: Batch, bC: Batch)
    returns (outcomes: seq<Intake>, batches: seq<Batch>, page: Page, timerRunning: bool)
    requires a != b && b != c && a != c
    ensures outcomes == [Accepted(false), Accepted(false), Accepted(true), Dropped]
    ensures batches == [bB, bA, bC]
    ensures page == Results && !timerRunning
  {
    var w := new SearchResultsWidget();
    var sent := w.Search(q, false, 0);
    w.RegisterRequest(q, u, [a, b, c]);
    ThreePeersAnswer(w.searchRequest.value, a, b, c, bA, bB, bC);
    var o1 := w.UpdateLoadingPage(RemoteResults(Some(u), Some(b), Some(bB)));
    var o2 := w.UpdateLoadingPage(RemoteResults(Some(u), Some(a), Some(bA)));
    var o3 := w.UpdateLoadingPage(RemoteResults(Some(u), Some(c), Some(bC)));
    batches := w.searchRequest.value.remoteResults;
    var o4 := w.UpdateLoadingPage(RemoteResults(Some(u), Some(c), Some(bC)));
    outcomes := [o1, o2, o3, o4];
    page, timerRunning := w.page, w.timerRunning;
  }

  /** The request of the scenario above, answer by answer: only the third answer completes it. */
  lemma ThreePeersAnswer(req: SearchRequest, a: PeerId, b: PeerId, c: PeerId, bA: Batch, bB: Batch, bC: Batch)
    requires a != b && b != c && a != c
    requires (forall p :: p in req.peers <==> p in [a, b, c]) && req.peersComplete == {} && req.remoteResults == []
    ensures !req.WithResponse(b, bB).Complete()
    ensures !req.WithResponse(b, bB).WithResponse(a, bA).Complete()
    ensures req.WithResponse(b, bB).WithResponse(a, bA).WithResponse(c, bC).Complete()
    ensures req.WithResponse(b, bB).WithResponse(a, bA).WithResponse(c, bC).remoteResults == [bB, bA, bC]
  {
    var r1 := req.WithResponse(b, bB);
    var r2 := r1.WithResponse(a, bA);
    var r3 := r2.WithResponse(c, bC);
    assert a in req.peers && a !in r1.peersComplete;
    assert c in req.peers && c !in r2.peersComplete;
    assert r3.peersComplete == {b, a, c};
    assert req.peers == {a, b, c};
  }

  /**
   * Peers A, B and C are expected; A and B answer, then the timeout fires:
   * the results are shown with two batches, and C's late answer is dropped.
   * An answer for the superseded request `old` is dropped too.
   */
  method TimeoutScenario(q: Query, u0: Uuid, u1: Uuid, a: PeerId, b: PeerId, c: PeerId, bA: Batch, bB: Batch, bC: Batch)
    returns (outcomes: seq<Intake>, batches: seq<Batch>, page: Page, counts: LoadingLabel)
    requires u0 != u1
    requires a != b && b != c && a != c
    ensures outcomes == [Dropped, Accepted(false), Accepted(false), Dropped]
    ensures batches == [bA, bB]
    ensures page == Results
    ensures counts == LoadingLabel(3, 2, 2)
  {
    var w := new SearchResultsWidget();
    var sent := w.Search(q, false, 0);
    w.RegisterRequest(q, u0, [a]);
    w.RegisterRequest(q, u1, [a, b, c]);
    TwoOfThreePeersAnswer(w.searchRequest.value, a, b, c, bA, bB);
    var o0 := w.UpdateLoadingPage(RemoteResults(Some(u0), Some(a), Some(bA)));
    var o1 := w.UpdateLoadingPage(RemoteResults(Some(u1), Some(a), Some(bA)));
    var o2 := w.UpdateLoadingPage(RemoteResults(Some(u1), Some(b), Some(bB)));
    w.ShowResults();
    var o3 := w.UpdateLoadingPage(RemoteResults(Some(u1), Some(c), Some(bC)));
    outcomes := [o0, o1, o2, o3];
    batches := w.searchRequest.value.remoteResults;
    page := w.page;
    counts := w.stateLabel.value;
  }

  /** The request of the scenario above: two answers of three leave it incomplete, with counts (3, 2, 2). */
  lemma TwoOfThreePeersAnswer(req: SearchRequest, a: PeerId, b: PeerId, c: PeerId, bA: Batch, bB: Batch)
    requires a != b && b != c && a != c
    requires (forall p :: p in req.peers <==> p in [a, b, c]) && req.peersComplete == {} && req.remoteResults == []
    ensures !req.WithResponse(a, bA).Complete()
    ensures !req.WithResponse(a, bA).WithResponse(b, bB).Complete()
    ensures req.WithResponse(a, bA).WithResponse(b, bB).remoteResults == [bA, bB]
    ensures FormatSearchLoadingLabel(req.WithResponse(a, bA).WithResponse(b, bB)) == LoadingLabel(3, 2, 2)
  {
    var r1 := req.WithResponse(a, bA);
    var r2 := r1.WithResponse(b, bB);
    assert c in req.peers && c !in r1.peersComplete && c !in r2.peersComplete;
    assert r2.peersComplete == {a, b};
    assert req.peers == {a, b, c};
  }
}
