/**
 * The log fetcher (`fetch_call_logs`): cursor-based pagination against the
 * call-log API. Each request asks for at most 100 calls of one assistant;
 * after a full page the next request carries `createdAtLt`, the creation
 * time of the last call of that page; the first page with fewer than 100
 * calls ends the loop. The HTTP endpoint is a function from the request to
 * the page it answers with.
 */
module Pagination {
  import opened Wrappers
  import opened Sequences
  import opened CallRecords

  /** `limit`: the most calls the API returns per request. */
  const PageSize: nat := 100

  /** The query parameters of one GET request. */
  datatype Request = Request(assistantId: string, limit: nat, createdAtLt: Option<string>)

  /** The first request names the assistant, asks for a full page and carries no cursor. */
  function FirstRequest(assistantId: string): (r: Request)
    ensures r.assistantId == assistantId && r.limit == PageSize && r.createdAtLt.None?
  {
    Request(assistantId, PageSize, None)
  }

  /** `params["createdAtLt"] = data[-1]["createdAt"]`: only the cursor changes. */
  function NextRequest(request: Request, page: seq<CallRecord>): (r: Request)
    requires |page| > 0
    ensures r.assistantId == request.assistantId && r.limit == request.limit
    ensures r.createdAtLt == page[|page| - 1].createdAt
  {
    request.(createdAtLt := page[|page| - 1].createdAt)
  }

  /** A page after which the loop asks for another: full, and its last call has `createdAt`. */
  predicate ContinuesAfter(page: seq<CallRecord>)
  {
    |page| >= PageSize && page[|page| - 1].createdAt.Some?
  }

  /**
   * The `k`-th request of the chain the loop would send, assuming it gets
   * that far (earlier pages full); an empty page stops the chain in place.
   */
  function ChainRequest(api: Request -> seq<CallRecord>, assistantId: string, k: nat): Request
  {
    if k == 0 then FirstRequest(assistantId)
    else
      var previous := ChainRequest(api, assistantId, k - 1);
      var page := api(previous);
      if |page| == 0 then previous else NextRequest(previous, page)
  }

  /**
   * The server answers the first `n` requests of the chain with pages after
   * which the loop continues and the `n+1`-th with a short page: the loop
   * ends after `n + 1` requests without raising.
   */
  ghost predicate Paginates(api: Request -> seq<CallRecord>, assistantId: string, n: nat)
  {
    && (forall k :: 0 <= k < n ==> ContinuesAfter(api(ChainRequest(api, assistantId, k))))
    && |api(ChainRequest(api, assistantId, n))| < PageSize
  }

  /**
   * `sent` is the sequence of requests of one complete run: it starts with
   * no cursor, each later request carries the `createdAt` of the last call
   * of the page before it, every page but the last is full, the last is short.
   */
  predicate IsTrace(api: Request -> seq<CallRecord>, assistantId: string, sent: seq<Request>)
  {
    && |sent| > 0
    && sent[0] == FirstRequest(assistantId)
    && (forall k :: 0 <= k < |sent| - 1 ==>
          ContinuesAfter(api(sent[k])) && sent[k + 1] == NextRequest(sent[k], api(sent[k])))
    && |api(sent[|sent| - 1])| < PageSize
  }

  /** The pages the server answered to the requests `sent`, in order. */
  function Pages(api: Request -> seq<CallRecord>, sent: seq<Request>): (pages: seq<seq<CallRecord>>)
    ensures |pages| == |sent|
    ensures forall k :: 0 <= k < |sent| ==> pages[k] == api(sent[k])
  {
    if sent == [] then []
    else Pages(api, sent[..|sent| - 1]) + [api(sent[|sent| - 1])]
  }

  /** The pages laid end to end. */
  function Flatten<T>(pages: seq<seq<T>>): seq<T>
  {
    if pages == [] then []
    else Flatten(pages[..|pages| - 1]) + pages[|pages| - 1]
  }

  /**
   * `fetch_call_logs`: `sent` records the requests issued; the result is the
   * concatenation of the pages in request order.
   */
  method FetchCallLogs(api: Request -> seq<CallRecord>, assistantId: string)
    returns (allCalls: seq<CallRecord>, sent: seq<Request>)
    requires exists n :: Paginates(api, assistantId, n)
    ensures IsTrace(api, assistantId, sent)
    ensures allCalls == Flatten(Pages(api, sent))
  {
    ghost var n: nat :| Paginates(api, assistantId, n);
    var params := FirstRequest(assistantId);
    allCalls, sent := [], [];
    while true
      invariant Fetching(api, assistantId, n, sent, params, allCalls)
      decreases n - |sent|
    {
      var data := api(params);
      if |data| < params.limit {
        FetchEnds(api, assistantId, n, sent, params, allCalls);
        sent := sent + [params];
        allCalls := allCalls + data;
        break;
      }
      FetchGoesOn(api, assistantId, n, sent, params, allCalls);
      sent := sent + [params];
      allCalls := allCalls + data;
      params := NextRequest(params, data);
    }
  }

  /**
   * The state of `fetch_call_logs` at the top of its loop: `sent` is the
   * start of the cursor chain, `next` the request about to be sent, and
   * the result so far the pages answered to `sent`.
   */
  ghost predicate Fetching(api: Request -> seq<CallRecord>, assistantId: string, n: nat,
                           sent: seq<Request>, next: Request, allCalls: seq<CallRecord>)
  {
    && Paginates(api, assistantId, n)
    && |sent| <= n
    && next == ChainRequest(api, assistantId, |sent|)
    && TracePrefix(api, assistantId, sent, next)
    && allCalls == Flatten(Pages(api, sent))
  }

  /** A full page: the loop records it, moves the cursor and stays within the chain. */
  lemma FetchGoesOn(api: Request -> seq<CallRecord>, assistantId: string, n: nat,
                    sent: seq<Request>, next: Request, allCalls: seq<CallRecord>)
    requires Fetching(api, assistantId, n, sent, next, allCalls)
    requires |api(next)| >= next.limit
    ensures |api(next)| > 0
    ensures Fetching(api, assistantId, n, sent + [next], NextRequest(next, api(next)), allCalls + api(next))
  {
    var k := |sent|;
    ChainKeepsQuery(api, assistantId, k);
    assert k != n;
    ChainStep(api, assistantId, k);
    TraceGoesOn(api, assistantId, sent, next);
    PagesSnoc(api, sent, next);
    FlattenSnoc(Pages(api, sent), api(next));
  }

  /** A short page: the loop records it and the requests sent form the whole trace. */
  lemma FetchEnds(api: Request -> seq<CallRecord>, assistantId: string, n: nat,
                  sent: seq<Request>, next: Request, allCalls: seq<CallRecord>)
    requires Fetching(api, assistantId, n, sent, next, allCalls)
    requires |api(next)| < next.limit
    ensures IsTrace(api, assistantId, sent + [next])
    ensures allCalls + api(next) == Flatten(Pages(api, sent + [next]))
  {
    ChainKeepsQuery(api, assistantId, |sent|);
    TraceEnds(api, assistantId, sent, next);
    PagesSnoc(api, sent, next);
    FlattenSnoc(Pages(api, sent), api(next));
  }

  /**
   * The loop's state part-way: `sent` is a trace without its final short
   * page, and `next` is the request the loop sends next.
   */
  predicate TracePrefix(api: Request -> seq<CallRecord>, assistantId: string, sent: seq<Request>, next: Request)
  {
    && (|sent| == 0 ==> next == FirstRequest(assistantId))
    && (|sent| > 0 ==> sent[0] == FirstRequest(assistantId))
    && (forall k :: 0 <= k < |sent| ==> ContinuesAfter(api(sent[k])))
    && (forall k :: 0 <= k < |sent| - 1 ==> sent[k + 1] == NextRequest(sent[k], api(sent[k])))
    && (|sent| > 0 ==> next == NextRequest(sent[|sent| - 1], api(sent[|sent| - 1])))
  }

  /** A full page with a `createdAt` on its last call extends the prefix by one request. */
  lemma TraceGoesOn(api: Request -> seq<CallRecord>, assistantId: string, sent: seq<Request>, next: Request)
    requires TracePrefix(api, assistantId, sent, next)
    requires ContinuesAfter(api(next))
    ensures TracePrefix(api, assistantId, sent + [next], NextRequest(next, api(next)))
  {
    var sent' := sent + [next];
    forall k | 0 <= k < |sent'| - 1 ensures sent'[k + 1] == NextRequest(sent'[k], api(sent'[k])) {
      if k < |sent| - 1 {
        assert sent'[k] == sent[k] && sent'[k + 1] == sent[k + 1];
      }
    }
  }

  /** A short page completes the trace. */
  lemma TraceEnds(api: Request -> seq<CallRecord>, assistantId: string, sent: seq<Request>, next: Request)
    requires TracePrefix(api, assistantId, sent, next)
    requires |api(next)| < PageSize
    ensures IsTrace(api, assistantId, sent + [next])
  {
    var sent' := sent + [next];
    forall k | 0 <= k < |sent'| - 1
      ensures ContinuesAfter(api(sent'[k])) && sent'[k + 1] == NextRequest(sent'[k], api(sent'[k]))
    {
      if k < |sent| - 1 {
        assert sent'[k] == sent[k] && sent'[k + 1] == sent[k + 1];
      }
    }
  }

  /** After a non-empty page the chain moves its cursor to that page's last `createdAt`. */
  lemma ChainStep(api: Request -> seq<CallRecord>, assistantId: string, k: nat)
    requires |api(ChainRequest(api, assistantId, k))| > 0
    ensures ChainRequest(api, assistantId, k + 1)
      == NextRequest(ChainRequest(api, assistantId, k), api(ChainRequest(api, assistantId, k)))
  {
  }

  /** Sending one more request adds its answer as the last page. */
  lemma PagesSnoc(api: Request -> seq<CallRecord>, sent: seq<Request>, request: Request)
    ensures Pages(api, sent + [request]) == Pages(api, sent) + [api(request)]
  {
    assert (sent + [request])[..|sent|] == sent;
  }

  /** Extending the result by one more page. */
  lemma FlattenSnoc<T>(pages: seq<seq<T>>, page: seq<T>)
    ensures Flatten(pages + [page]) == Flatten(pages) + page
  {
    assert (pages + [page])[..|pages|] == pages;
  }

  /** Every request of the chain names the same assistant and asks for a full page. */
  lemma {:induction false} ChainKeepsQuery(api: Request -> seq<CallRecord>, assistantId: string, k: nat)
    ensures ChainRequest(api, assistantId, k).assistantId == assistantId
    ensures ChainRequest(api, assistantId, k).limit == PageSize
  {
    if k > 0 {
      ChainKeepsQuery(api, assistantId, k - 1);
    }
  }

  /** The `k`-th request of a run is the `k`-th request of the chain. */
  lemma {:induction false} TraceAt(api: Request -> seq<CallRecord>, assistantId: string, sent: seq<Request>, k: nat)
    requires IsTrace(api, assistantId, sent)
    requires k < |sent|
    ensures sent[k] == ChainRequest(api, assistantId, k)
  {
    if k > 0 {
      TraceAt(api, assistantId, sent, k - 1);
    }
  }

  /** Every request of a run asks for the same assistant and the same page size; only the cursor moves. */
  lemma TraceKeepsQuery(api: Request -> seq<CallRecord>, assistantId: string, sent: seq<Request>)
    requires IsTrace(api, assistantId, sent)
    ensures forall k :: 0 <= k < |sent| ==> sent[k].assistantId == assistantId && sent[k].limit == PageSize
  {
    forall k | 0 <= k < |sent|
      ensures sent[k].assistantId == assistantId && sent[k].limit == PageSize
    {
      TraceAt(api, assistantId, sent, k);
      ChainKeepsQuery(api, assistantId, k);
    }
  }

  /** The requests of a run are the chain: request `k` is ChainRequest(k), and the run is the one Paginates describes. */
  lemma TraceFollowsChain(api: Request -> seq<CallRecord>, assistantId: string, sent: seq<Request>)
    requires IsTrace(api, assistantId, sent)
    ensures forall k :: 0 <= k < |sent| ==> sent[k] == ChainRequest(api, assistantId, k)
    ensures Paginates(api, assistantId, |sent| - 1)
  {
    forall k | 0 <= k < |sent| ensures sent[k] == ChainRequest(api, assistantId, k) {
      TraceAt(api, assistantId, sent, k);
    }
  }

  /** The server's answers determine the run: two traces for the same server and assistant are equal. */
  lemma TraceIsUnique(api: Request -> seq<CallRecord>, assistantId: string, sent: seq<Request>, sent': seq<Request>)
    requires IsTrace(api, assistantId, sent) && IsTrace(api, assistantId, sent')
    ensures sent == sent'
  {
    TraceFollowsChain(api, assistantId, sent);
    TraceFollowsChain(api, assistantId, sent');
  }

  /** When the first page is already short, exactly one request is sent. */
  lemma ShortFirstPageIsOnlyRequest(api: Request -> seq<CallRecord>, assistantId: string, sent: seq<Request>)
    requires |api(FirstRequest(assistantId))| < PageSize
    requires IsTrace(api, assistantId, sent)
    ensures sent == [FirstRequest(assistantId)]
  {
  }

  /** Flattening distributes over appending pages. */
  lemma {:induction false} FlattenAppend<T>(pages: seq<seq<T>>, more: seq<seq<T>>)
    ensures Flatten(pages + more) == Flatten(pages) + Flatten(more)
    decreases |more|
  {
    if more == [] {
      assert pages + more == pages;
    } else {
      var n := |more| - 1;
      assert (pages + more)[..|pages + more| - 1] == pages + more[..n];
      FlattenAppend(pages, more[..n]);
      Associative(Flatten(pages), Flatten(more[..n]), more[n]);
    }
  }

  /** No call is lost or invented: the result holds as many calls as all pages together. */
  lemma {:induction false} FlattenLength<T>(pages: seq<seq<T>>)
    ensures |Flatten(pages)| == TotalLength(pages)
    decreases |pages|
  {
    if pages != [] {
      FlattenLength(pages[..|pages| - 1]);
      TotalLengthAppend(pages[..|pages| - 1], pages[|pages| - 1]);
      assert pages[..|pages| - 1] + [pages[|pages| - 1]] == pages;
    }
  }

  function TotalLength<T>(pages: seq<seq<T>>): nat
  {
    if pages == [] then 0 else |pages[0]| + TotalLength(pages[1..])
  }

  lemma {:induction false} TotalLengthAppend<T>(pages: seq<seq<T>>, page: seq<T>)
    ensures TotalLength(pages + [page]) == TotalLength(pages) + |page|
    decreases |pages|
  {
    if pages != [] {
      assert (pages + [page])[1..] == pages[1..] + [page];
      TotalLengthAppend(pages[1..], page);
    }
  }
}

/** The three-page scenario: a server answering pages of 100, 100 and 37 calls. */
module PaginationScenario {
  import opened Wrappers
  import opened CallRecords
  import opened Pagination

  function StubCall(createdAt: string): CallRecord
  {
    CallRecord(Some("call"), Some(createdAt), None, None, None, None, None)
  }

  /** Pages are keyed by the cursor: none, then "t1", then anything else. */
  function StubServer(request: Request): seq<CallRecord>
  {
    match request.createdAtLt
    case None => seq(100, _ => StubCall("t1"))
    case Some(cursor) =>
      if cursor == "t1" then seq(100, _ => StubCall("t2")) else seq(37, _ => StubCall("t3"))
  }

  /** The loop ends on this server, so FetchCallLogs may be called on it. */
  lemma StubServerPaginates(assistantId: string)
    ensures Paginates(StubServer, assistantId, 2)
  {
    var r0 := ChainRequest(StubServer, assistantId, 0);
    var r1 := ChainRequest(StubServer, assistantId, 1);
    assert r1.createdAtLt == Some("t1");
    var r2 := ChainRequest(StubServer, assistantId, 2);
    assert r2.createdAtLt == Some("t2");
  }

  /**
   * Exactly three requests are sent, the second and third carrying the
   * creation time of the last call of the page before, and 237 calls result.
   */
  lemma ThreePageRun(assistantId: string, sent: seq<Request>)
    requires IsTrace(StubServer, assistantId, sent)
    ensures |sent| == 3
    ensures sent[0].createdAtLt == None
    ensures sent[1].createdAtLt == Some("t1") && sent[2].createdAtLt == Some("t2")
    ensures |Flatten(Pages(StubServer, sent))| == 237
  {
    assert |StubServer(sent[0])| == 100;
    assert |sent| > 1;
    assert sent[1].createdAtLt == Some("t1");
    assert |StubServer(sent[1])| == 100;
    assert |sent| > 2;
    assert sent[2].createdAtLt == Some("t2");
    assert |StubServer(sent[2])| == 37;
    var pages := Pages(StubServer, sent);
    FlattenLength(pages);
    assert pages[1..][1..][1..] == [];
    assert TotalLength(pages[1..][1..]) == 37;
    assert TotalLength(pages[1..]) == 137;
  }
}
