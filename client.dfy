/** The paginated fetch client (`get_lifelogs`). The network is a scripted
    transport: the i-th request sent is answered by the i-th reply of the
    script, and every request beyond the script raises a request exception. */
module Client {
  import opened Common

  /** The JSON body of an ok response: `data.lifelogs` (empty when absent)
      and `meta.lifelogs.nextCursor`. */
  datatype Page = Page(lifelogs: seq<Lifelog>, nextCursor: Option<string>)

  /** One answer of the transport. `body` is None when the body is not JSON. */
  datatype Reply = Response(status: int, body: Option<Page>) | RequestException

  /** The arguments of `get_lifelogs` that shape the requests. */
  datatype Query = Query(
    limit: Option<nat>,
    batchSize: nat,
    includeMarkdown: bool,
    includeHeadings: bool,
    date: Option<string>,
    timezone: Option<string>,
    direction: string)

  /** The query parameters of one GET; `cursor` is None when not sent. */
  datatype Request = Request(
    limit: nat,
    includeMarkdown: string,
    includeHeadings: string,
    date: Option<string>,
    direction: string,
    timezone: string,
    cursor: Option<string>)

  /** The exceptions `get_lifelogs` raises. */
  datatype FetchError =
    | HttpError(status: int)       // a failing status other than 504
    | GatewayTimeoutExhausted      // 504 on every allowed attempt
    | RequestExhausted             // a request exception on every allowed attempt
    | InvalidJson                  // `response.json()` failed on an ok response

  /** Either every lifelog fetched, or an exception: never a partial list. */
  datatype FetchResult = Fetched(lifelogs: seq<Lifelog>) | Failed(error: FetchError)

  const GatewayTimeout := 504
  const DefaultBatchSize := 10
  const DefaultMaxRetries := 3

  /** `response.ok` of the requests library: false exactly for 4xx and 5xx. */
  predicate IsOk(status: int)
  {
    !(400 <= status && status < 600)
  }

  function ReplyAt(script: seq<Reply>, i: nat): Reply
  {
    if i < |script| then script[i] else RequestException
  }

  /** A reply that delivers a page. */
  predicate IsPage(r: Reply)
  {
    r.Response? && IsOk(r.status) && r.body.Some?
  }

  /** A reply after which the same request is tried again. */
  predicate Retryable(r: Reply)
  {
    r.RequestException? || r.status == GatewayTimeout
  }

  /** The page size sent with every request. */
  function PageSize(q: Query): (n: nat)
    ensures n <= q.batchSize
    ensures q.limit.Some? ==> n <= q.limit.value
    ensures n == q.batchSize || (q.limit.Some? && n == q.limit.value)
  {
    if q.limit.Some? && q.limit.value < q.batchSize then q.limit.value else q.batchSize
  }

  function Flag(b: bool): string
  {
    if b then "true" else "false"
  }

  /** The parameters of a request carrying `cursor`. */
  function RequestFor(q: Query, localZone: string, cursor: Option<string>): Request
  {
    Request(
      PageSize(q),
      Flag(q.includeMarkdown),
      Flag(!q.includeHeadings),
      q.date,
      q.direction,
      if Truthy(q.timezone) then q.timezone.value else localZone,
      cursor)
  }

  /** `includeMarkdown` is sent as given and `includeHeadings` negated. */
  lemma RequestFlags(q: Query, localZone: string, cursor: Option<string>)
    ensures RequestFor(q, localZone, cursor).includeMarkdown == "true" <==> q.includeMarkdown
    ensures RequestFor(q, localZone, cursor).includeHeadings == "true" <==> !q.includeHeadings
    ensures RequestFor(q, localZone, cursor).includeHeadings == "false" <==> q.includeHeadings
  {
  }

  /** The pages delivered by the first `n` replies, in order. */
  function Received(script: seq<Reply>, n: nat): seq<Page>
  {
    if n == 0 then []
    else Received(script, n - 1) + (if IsPage(ReplyAt(script, n - 1)) then [ReplyAt(script, n - 1).body.value] else [])
  }

  /** All lifelogs of `pages`, concatenated in order. */
  function Flatten(pages: seq<Page>): seq<Lifelog>
  {
    if pages == [] then [] else Flatten(Init(pages)) + Last(pages).lifelogs
  }

  /** The cursor of the request after one that carried `cursor` and got
      `r`: the page's next cursor after a page, the same cursor on a retry. */
  function NextCursor(r: Reply, cursor: Option<string>): Option<string>
  {
    if IsPage(r) then r.body.value.nextCursor else cursor
  }

  /** How many failed replies come right before reply `n`. */
  function Streak(script: seq<Reply>, n: nat): nat
  {
    if n == 0 || IsPage(ReplyAt(script, n - 1)) then 0 else Streak(script, n - 1) + 1
  }

  /** `all[:limit]` when a limit is given. */
  function Truncate(all: seq<Lifelog>, limit: Option<nat>): (r: seq<Lifelog>)
    ensures r <= all
    ensures limit.Some? ==> |r| <= limit.value
    ensures limit.Some? && |all| >= limit.value ==> |r| == limit.value
    ensures (limit.None? || |all| <= limit.value) ==> r == all
  {
    if limit.Some? && |all| > limit.value then all[..limit.value] else all
  }

  /** Paging stops after `page` once the limit is reached, the cursor is
      missing or empty, or the page is short; `all` includes `page`. */
  predicate Ends(q: Query, all: seq<Lifelog>, page: Page)
  {
    || (q.limit.Some? && |all| >= q.limit.value)
    || !Truthy(page.nextCursor)
    || |page.lifelogs| < PageSize(q)
  }

  /** None of `pages` ended the paging. */
  predicate Continued(q: Query, pages: seq<Page>)
  {
    pages == [] || (Continued(q, Init(pages)) && !Ends(q, Flatten(pages), Last(pages)))
  }

  lemma ReceivedStep(script: seq<Reply>, n: nat)
    ensures IsPage(ReplyAt(script, n)) ==> Received(script, n + 1) == Received(script, n) + [ReplyAt(script, n).body.value]
    ensures !IsPage(ReplyAt(script, n)) ==> Received(script, n + 1) == Received(script, n)
    ensures |Received(script, n)| <= n
  {
    if n > 0 {
      ReceivedStep(script, n - 1);
    }
  }

  /** The first request carries no cursor; each later one is the request
      that follows its predecessor and that predecessor's reply. */
  predicate Chained(script: seq<Reply>, q: Query, localZone: string, sent: seq<Request>)
  {
    && (sent != [] ==> sent[0] == RequestFor(q, localZone, None))
    && forall i :: 0 < i < |sent| ==>
         sent[i] == RequestFor(q, localZone, NextCursor(ReplyAt(script, i - 1), sent[i - 1].cursor))
  }

  /** `cursor` is the one the next request carries after `sent`. */
  predicate CursorNext(script: seq<Reply>, sent: seq<Request>, cursor: Option<string>)
  {
    if sent == [] then cursor == None
    else cursor == NextCursor(ReplyAt(script, |sent| - 1), Last(sent).cursor)
  }

  /** No request among the first `n` follows `maxRetries` failures in a row. */
  predicate Patient(script: seq<Reply>, maxRetries: nat, n: nat)
  {
    forall i :: 0 <= i < n ==> Streak(script, i) < maxRetries
  }

  /** Each of the first `n` replies delivered a page or was retryable. */
  predicate OnlyRetried(script: seq<Reply>, n: nat)
  {
    forall i :: 0 <= i < n ==> IsPage(ReplyAt(script, i)) || Retryable(ReplyAt(script, i))
  }

  lemma ChainStep(script: seq<Reply>, q: Query, localZone: string, sent: seq<Request>, cursor: Option<string>)
    requires Chained(script, q, localZone, sent) && CursorNext(script, sent, cursor)
    ensures Chained(script, q, localZone, sent + [RequestFor(q, localZone, cursor)])
  {
    var sent' := sent + [RequestFor(q, localZone, cursor)];
    forall i | 0 < i < |sent'|
      ensures sent'[i] == RequestFor(q, localZone, NextCursor(ReplyAt(script, i - 1), sent'[i - 1].cursor))
    {
      assert sent'[i - 1] == sent[i - 1];
      if i < |sent| {
        assert sent'[i] == sent[i];
      }
    }
  }

  /** Why the last reply of `n` requests ended the fetch with `err`. */
  predicate Explains(script: seq<Reply>, maxRetries: nat, n: nat, err: FetchError)
    requires n >= 1
  {
    var last := ReplyAt(script, n - 1);
    match err
    case HttpError(s) =>
      last.Response? && last.status == s && !IsOk(s) && s != GatewayTimeout
    case GatewayTimeoutExhausted =>
      last.Response? && last.status == GatewayTimeout && Streak(script, n) == maxRetries
    case RequestExhausted =>
      last.RequestException? && Streak(script, n) == maxRetries
    case InvalidJson =>
      last.Response? && IsOk(last.status) && last.body.None?
  }

  /** One attempt of the retry loop: what sending the next request and
      reading its reply does to the facts the loop keeps. */
  lemma AttemptStep(script: seq<Reply>, q: Query, localZone: string, maxRetries: nat,
                    sent: seq<Request>, cursor: Option<string>, retries: nat)
    requires Chained(script, q, localZone, sent) && CursorNext(script, sent, cursor)
    requires Patient(script, maxRetries, |sent|) && OnlyRetried(script, |sent|)
    requires retries == Streak(script, |sent|) < maxRetries
    ensures var sent' := sent + [RequestFor(q, localZone, cursor)];
      && Chained(script, q, localZone, sent')
      && Patient(script, maxRetries, |sent'|)
      && (!IsPage(ReplyAt(script, |sent|)) ==>
           && CursorNext(script, sent', cursor)
           && Streak(script, |sent'|) == retries + 1
           && Received(script, |sent'|) == Received(script, |sent|))
      && (Retryable(ReplyAt(script, |sent|)) ==> OnlyRetried(script, |sent'|))
  {
    var sent' := sent + [RequestFor(q, localZone, cursor)];
    ReceivedStep(script, |sent|);
    ChainStep(script, q, localZone, sent, cursor);
    PatientStep(script, maxRetries, |sent|);
    if !IsPage(ReplyAt(script, |sent|)) {
      assert Last(sent').cursor == cursor;
    }
    if Retryable(ReplyAt(script, |sent|)) {
      OnlyRetriedStep(script, |sent|);
    }
  }

  lemma PatientStep(script: seq<Reply>, maxRetries: nat, n: nat)
    requires Patient(script, maxRetries, n) && Streak(script, n) < maxRetries
    ensures Patient(script, maxRetries, n + 1)
  {
  }

  lemma OnlyRetriedStep(script: seq<Reply>, n: nat)
    requires OnlyRetried(script, n) && Retryable(ReplyAt(script, n))
    ensures OnlyRetried(script, n + 1)
  {
  }

  /** The retry loop for one page: request with `cursor` until a reply with
      an ok status, a status that is neither ok nor 504, or `maxRetries`
      failed attempts. `err` is None when an ok response arrived; that
      response is the last reply of `sent`. */
  method RequestPage(script: seq<Reply>, q: Query, localZone: string, maxRetries: nat,
                     cursor: Option<string>, sent0: seq<Request>)
    returns (err: Option<FetchError>, sent: seq<Request>, pauses: nat)
    requires maxRetries >= 1
    requires Streak(script, |sent0|) == 0
    requires Chained(script, q, localZone, sent0) && CursorNext(script, sent0, cursor)
    requires Patient(script, maxRetries, |sent0|) && OnlyRetried(script, |sent0|)
    ensures |sent0| < |sent|
    ensures Chained(script, q, localZone, sent) && Last(sent).cursor == cursor
    ensures Patient(script, maxRetries, |sent|) && OnlyRetried(script, |sent| - 1)
    ensures Received(script, |sent| - 1) == Received(script, |sent0|)
    ensures pauses == |sent| - |sent0| - 1
    ensures err.None? ==> ReplyAt(script, |sent| - 1).Response? && IsOk(ReplyAt(script, |sent| - 1).status)
    ensures err.Some? ==> !IsPage(ReplyAt(script, |sent| - 1)) && err.value != InvalidJson
    ensures err.Some? ==> Explains(script, maxRetries, |sent|, err.value)
  {
    sent, pauses := sent0, 0;
    ghost var pages := Received(script, |sent0|);
    var retries := 0;
    while true
      invariant |sent0| <= |sent|
      invariant retries == Streak(script, |sent|) < maxRetries
      invariant retries == |sent| - |sent0| == pauses
      invariant Received(script, |sent|) == pages
      invariant Chained(script, q, localZone, sent) && CursorNext(script, sent, cursor)
      invariant Patient(script, maxRetries, |sent|) && OnlyRetried(script, |sent|)
      decreases maxRetries - retries
    {
      AttemptStep(script, q, localZone, maxRetries, sent, cursor, retries);
      var reply := ReplyAt(script, |sent|);
      sent := sent + [RequestFor(q, localZone, cursor)];
      if reply.Response? && IsOk(reply.status) {
        return None, sent, pauses;
      }
      if reply.Response? && reply.status != GatewayTimeout {
        // any failing status other than 504 raises at once
        return Some(HttpError(reply.status)), sent, pauses;
      }
      retries := retries + 1;
      if retries == maxRetries {
        err := if reply.Response? then Some(GatewayTimeoutExhausted) else Some(RequestExhausted);
        return err, sent, pauses;
      }
      pauses := pauses + 1;
    }
  }

  lemma ChainedLimits(script: seq<Reply>, q: Query, localZone: string, sent: seq<Request>)
    requires Chained(script, q, localZone, sent)
    ensures forall i :: 0 <= i < |sent| ==> sent[i].limit == PageSize(q)
  {
    forall i | 0 <= i < |sent|
      ensures sent[i].limit == PageSize(q)
    {
      if i > 0 {
        assert sent[i] == RequestFor(q, localZone, NextCursor(ReplyAt(script, i - 1), sent[i - 1].cursor));
      }
    }
  }

  /** What one more page adds to the pages received so far. */
  lemma PageAppended(q: Query, pages: seq<Page>, page: Page)
    requires Continued(q, pages)
    ensures Init(pages + [page]) == pages && Last(pages + [page]) == page
    ensures Flatten(pages + [page]) == Flatten(pages) + page.lifelogs
    ensures Continued(q, pages + [page]) <==> !Ends(q, Flatten(pages) + page.lifelogs, page)
  {
    assert Init(pages + [page]) == pages;
  }

  /** What `get_lifelogs` keeps between pages: `sent` ends with a page, or
      is empty; `acc` is every lifelog received; no page ended the paging;
      `cursor` is the next page's; every pause was a retry. */
  ghost predicate Paging(script: seq<Reply>, q: Query, localZone: string, maxRetries: nat,
                         sent: seq<Request>, acc: seq<Lifelog>, cursor: Option<string>, sleeps: nat)
  {
    && |sent| <= |script|
    && Streak(script, |sent|) == 0
    && acc == Flatten(Received(script, |sent|))
    && Continued(q, Received(script, |sent|))
    && Chained(script, q, localZone, sent) && CursorNext(script, sent, cursor)
    && Patient(script, maxRetries, |sent|) && OnlyRetried(script, |sent|)
    && sleeps == |sent| - |Received(script, |sent|)|
  }

  /** How a fetch that sent `sent` and paused `sleeps` times ended with `res`. */
  ghost predicate Outcome(script: seq<Reply>, q: Query, localZone: string, maxRetries: nat,
                          sent: seq<Request>, sleeps: nat, res: FetchResult)
  {
    && sent != [] && Chained(script, q, localZone, sent)
    && Patient(script, maxRetries, |sent|) && OnlyRetried(script, |sent| - 1)
    && sleeps == |sent| - |Received(script, |sent|)| - (if res.Failed? then 1 else 0)
    && (res.Fetched? ==>
         && |sent| <= |script|
         && IsPage(ReplyAt(script, |sent| - 1))
         && Received(script, |sent|) != []
         && Ends(q, Flatten(Received(script, |sent|)), Last(Received(script, |sent|)))
         && Continued(q, Init(Received(script, |sent|)))
         && res.lifelogs == Truncate(Flatten(Received(script, |sent|)), q.limit))
    && (res.Failed? ==>
         && Continued(q, Received(script, |sent|))
         && !IsPage(ReplyAt(script, |sent| - 1))
         && Explains(script, maxRetries, |sent|, res.error))
  }

  /** The retry loop for the next page has run: `sent` extends `sent0` by
      that page's attempts, and only its last reply is still to be read. */
  ghost predicate Requested(script: seq<Reply>, q: Query, localZone: string, maxRetries: nat,
                            sent0: seq<Request>, acc0: seq<Lifelog>, cursor0: Option<string>, sleeps0: nat,
                            sent: seq<Request>, sleeps: nat)
  {
    && Paging(script, q, localZone, maxRetries, sent0, acc0, cursor0, sleeps0)
    && |sent0| < |sent|
    && Chained(script, q, localZone, sent) && Last(sent).cursor == cursor0
    && Patient(script, maxRetries, |sent|) && OnlyRetried(script, |sent| - 1)
    && Received(script, |sent| - 1) == Received(script, |sent0|)
    && sleeps == sleeps0 + (|sent| - |sent0| - 1)
  }

  /** A last reply that is not a page ends the fetch with `err`. */
  lemma FailedOutcome(script: seq<Reply>, q: Query, localZone: string, maxRetries: nat,
                      sent0: seq<Request>, acc0: seq<Lifelog>, cursor0: Option<string>, sleeps0: nat,
                      sent: seq<Request>, sleeps: nat, err: FetchError)
    requires Requested(script, q, localZone, maxRetries, sent0, acc0, cursor0, sleeps0, sent, sleeps)
    requires !IsPage(ReplyAt(script, |sent| - 1)) && Explains(script, maxRetries, |sent|, err)
    ensures Outcome(script, q, localZone, maxRetries, sent, sleeps, Failed(err))
  {
    ReceivedStep(script, |sent| - 1);
  }

  /** What a last reply that is a page adds to the facts kept. */
  lemma PageStep(script: seq<Reply>, q: Query, localZone: string, maxRetries: nat,
                 sent0: seq<Request>, acc0: seq<Lifelog>, cursor0: Option<string>, sleeps0: nat,
                 sent: seq<Request>, sleeps: nat, page: Page)
    requires Requested(script, q, localZone, maxRetries, sent0, acc0, cursor0, sleeps0, sent, sleeps)
    requires IsPage(ReplyAt(script, |sent| - 1)) && ReplyAt(script, |sent| - 1).body == Some(page)
    ensures var pages := Received(script, |sent|);
      && |sent| <= |script|
      && pages == Received(script, |sent0|) + [page]
      && pages != [] && Init(pages) == Received(script, |sent0|) && Last(pages) == page
      && Flatten(pages) == acc0 + page.lifelogs
      && (Continued(q, pages) <==> !Ends(q, acc0 + page.lifelogs, page))
      && Continued(q, Init(pages))
      && sleeps == |sent| - |pages|
      && Streak(script, |sent|) == 0 && OnlyRetried(script, |sent|)
  {
    ReceivedStep(script, |sent| - 1);
    PageAppended(q, Received(script, |sent0|), page);
  }

  /** A page that ends the paging ends the fetch with `lifelogs`. */
  lemma FetchedOutcome(script: seq<Reply>, q: Query, localZone: string, maxRetries: nat,
                       sent0: seq<Request>, acc0: seq<Lifelog>, cursor0: Option<string>, sleeps0: nat,
                       sent: seq<Request>, sleeps: nat, page: Page, lifelogs: seq<Lifelog>)
    requires Requested(script, q, localZone, maxRetries, sent0, acc0, cursor0, sleeps0, sent, sleeps)
    requires IsPage(ReplyAt(script, |sent| - 1)) && ReplyAt(script, |sent| - 1).body == Some(page)
    requires Ends(q, acc0 + page.lifelogs, page)
    requires lifelogs == Truncate(acc0 + page.lifelogs, q.limit)
    ensures Outcome(script, q, localZone, maxRetries, sent, sleeps, Fetched(lifelogs))
  {
    PageStep(script, q, localZone, maxRetries, sent0, acc0, cursor0, sleeps0, sent, sleeps, page);
  }

  /** A page that does not end the paging leaves the loop's facts in place,
      with its lifelogs added and its next cursor. */
  lemma ContinuedPaging(script: seq<Reply>, q: Query, localZone: string, maxRetries: nat,
                        sent0: seq<Request>, acc0: seq<Lifelog>, cursor0: Option<string>, sleeps0: nat,
                        sent: seq<Request>, sleeps: nat, page: Page)
    requires Requested(script, q, localZone, maxRetries, sent0, acc0, cursor0, sleeps0, sent, sleeps)
    requires IsPage(ReplyAt(script, |sent| - 1)) && ReplyAt(script, |sent| - 1).body == Some(page)
    requires !Ends(q, acc0 + page.lifelogs, page)
    ensures Paging(script, q, localZone, maxRetries, sent, acc0 + page.lifelogs, page.nextCursor, sleeps)
  {
    PageStep(script, q, localZone, maxRetries, sent0, acc0, cursor0, sleeps0, sent, sleeps, page);
  }

  /** One page of `get_lifelogs`: request it (with retries), then stop with
      an error, stop with the lifelogs, or go on with the next cursor. */
  method FetchPage(script: seq<Reply>, q: Query, localZone: string, maxRetries: nat,
                   sent0: seq<Request>, acc0: seq<Lifelog>, cursor0: Option<string>, sleeps0: nat)
    returns (done: Option<FetchResult>, sent: seq<Request>, acc: seq<Lifelog>, cursor: Option<string>, sleeps: nat)
    requires maxRetries >= 1
    requires Paging(script, q, localZone, maxRetries, sent0, acc0, cursor0, sleeps0)
    ensures |sent0| < |sent|
    ensures done.None? ==> Paging(script, q, localZone, maxRetries, sent, acc, cursor, sleeps)
    ensures done.Some? ==> Outcome(script, q, localZone, maxRetries, sent, sleeps, done.value)
  {
    var err, pauses;
    err, sent, pauses := RequestPage(script, q, localZone, maxRetries, cursor0, sent0);
    sleeps := sleeps0 + pauses;
    assert Requested(script, q, localZone, maxRetries, sent0, acc0, cursor0, sleeps0, sent, sleeps);
    var reply := ReplyAt(script, |sent| - 1);
    acc, cursor := acc0, cursor0;
    if err.Some? {
      done := Some(Failed(err.value));
      FailedOutcome(script, q, localZone, maxRetries, sent0, acc0, cursor0, sleeps0, sent, sleeps, err.value);
    } else if reply.body.None? {
      done := Some(Failed(InvalidJson));
      FailedOutcome(script, q, localZone, maxRetries, sent0, acc0, cursor0, sleeps0, sent, sleeps, InvalidJson);
    } else {
      var page := reply.body.value;
      acc := acc + page.lifelogs;
      if q.limit.Some? && |acc| >= q.limit.value {
        done := Some(Fetched(acc[..q.limit.value]));
        assert acc[..q.limit.value] == Truncate(acc, q.limit);
        FetchedOutcome(script, q, localZone, maxRetries, sent0, acc0, cursor0, sleeps0, sent, sleeps, page, acc[..q.limit.value]);
      } else if !Truthy(page.nextCursor) || |page.lifelogs| < PageSize(q) {
        done := Some(Fetched(acc));
        FetchedOutcome(script, q, localZone, maxRetries, sent0, acc0, cursor0, sleeps0, sent, sleeps, page, acc);
      } else {
        cursor, done := page.nextCursor, None;
        ContinuedPaging(script, q, localZone, maxRetries, sent0, acc0, cursor0, sleeps0, sent, sleeps, page);
      }
    }
  }

  /** `get_lifelogs` over the scripted transport. `sent` is every request,
      in order, and `sleeps` counts the pauses between attempts. The clauses
      below spell out `Outcome`, which callers carry on. */
  method GetLifelogs(script: seq<Reply>, q: Query, localZone: string, maxRetries: nat)
    returns (res: FetchResult, sent: seq<Request>, sleeps: nat)
    requires maxRetries >= 1
    ensures Outcome(script, q, localZone, maxRetries, sent, sleeps, res)
    // requests: the first carries no cursor, a retry repeats its request,
    // the request after a page carries that page's next cursor, and every
    // request asks for the same page size
    ensures sent != [] && Chained(script, q, localZone, sent)
    ensures forall i :: 0 <= i < |sent| ==> sent[i].limit == PageSize(q)
    // retries: at most `maxRetries` attempts for one page, and only a 504
    // or a request exception is followed by another attempt
    ensures Patient(script, maxRetries, |sent|) && OnlyRetried(script, |sent| - 1)
    ensures sleeps == |sent| - |Received(script, |sent|)| - (if res.Failed? then 1 else 0)
    // success: the last reply is a page that ends paging, no earlier page
    // did, and the result is the pages' lifelogs in order, cut to the limit
    ensures res.Fetched? ==>
      && |sent| <= |script|
      && IsPage(ReplyAt(script, |sent| - 1))
      && Received(script, |sent|) != []
      && Ends(q, Flatten(Received(script, |sent|)), Last(Received(script, |sent|)))
      && Continued(q, Init(Received(script, |sent|)))
      && res.lifelogs == Truncate(Flatten(Received(script, |sent|)), q.limit)
    // failure: no page ended paging, and the last reply says why
    ensures res.Failed? ==>
      && Continued(q, Received(script, |sent|))
      && !IsPage(ReplyAt(script, |sent| - 1))
      && Explains(script, maxRetries, |sent|, res.error)
  {
    var acc: seq<Lifelog> := [];
    var cursor: Option<string> := None;
    sent, sleeps := [], 0;
    while true
      invariant Paging(script, q, localZone, maxRetries, sent, acc, cursor, sleeps)
      decreases |script| - |sent|
    {
      var done;
      done, sent, acc, cursor, sleeps := FetchPage(script, q, localZone, maxRetries, sent, acc, cursor, sleeps);
      if done.Some? {
        res := done.value;
        break;
      }
    }
    ChainedLimits(script, q, localZone, sent);
  }

  /** The query both pipelines send: every lifelog of one day, newest first,
      in New York time, with markdown and without headings. */
  function DayQuery(date: string): Query
  {
    Query(None, DefaultBatchSize, true, false, Some(date), Some("America/New_York"), "desc")
  }

  /** One `get_lifelogs` call of the pipelines, for `date`: `get_lifelogs`
      with the day query and the default retry bound, so every request asks
      for that date with the default page size. */
  method FetchDay(script: seq<Reply>, date: string, localZone: string)
    returns (res: FetchResult, sent: seq<Request>, sleeps: nat)
    ensures Outcome(script, DayQuery(date), localZone, DefaultMaxRetries, sent, sleeps, res)
    ensures forall i :: 0 <= i < |sent| ==> sent[i].date == Some(date) && sent[i].limit == DefaultBatchSize
  {
    res, sent, sleeps := GetLifelogs(script, DayQuery(date), localZone, DefaultMaxRetries);
    ChainedLimits(script, DayQuery(date), localZone, sent);
    ChainedDates(script, DayQuery(date), localZone, sent);
  }

  /** What today's fetch of `get_recent_conversations` did: how many
      requests it sent, how many pauses it made, and what it returned. */
  datatype DayFetch = DayFetch(requests: nat, sleeps: nat, result: FetchResult)

  /** `sent`, `sleeps` and `res` are those of the pipelines' fetch: today's
      fetch is `get_lifelogs` on the script and ends with `first.result`;
      when that is an empty list, yesterday's fetch follows on the rest of
      the script and gives `res`; otherwise `res` is today's result and
      nothing else is sent. */
  ghost predicate RecentOutcome(script: seq<Reply>, today: string, yesterday: string, localZone: string,
                                sent: seq<Request>, sleeps: nat, res: FetchResult, first: DayFetch)
  {
    && first.requests <= |sent| && first.sleeps <= sleeps
    && Outcome(script, DayQuery(today), localZone, DefaultMaxRetries, sent[..first.requests], first.sleeps, first.result)
    && (first.result == Fetched([]) ==>
         && first.requests <= |script|
         && Outcome(script[first.requests..], DayQuery(yesterday), localZone, DefaultMaxRetries,
                    sent[first.requests..], sleeps - first.sleeps, res))
    && (first.result != Fetched([]) ==>
         first.requests == |sent| && sleeps == first.sleeps && res == first.result)
  }

  /** A non-empty or failed fetch of today is the whole fetch. */
  lemma TodayOnly(script: seq<Reply>, today: string, yesterday: string, localZone: string,
                  sent: seq<Request>, sleeps: nat, res: FetchResult)
    requires Outcome(script, DayQuery(today), localZone, DefaultMaxRetries, sent, sleeps, res)
    requires res != Fetched([])
    ensures RecentOutcome(script, today, yesterday, localZone, sent, sleeps, res, DayFetch(|sent|, sleeps, res))
  {
    assert sent[..|sent|] == sent;
  }

  /** An empty fetch of today followed by a fetch of yesterday on the rest
      of the script. */
  lemma TodayThenYesterday(script: seq<Reply>, today: string, yesterday: string, localZone: string,
                           sent0: seq<Request>, sleeps0: nat, sent1: seq<Request>, sleeps1: nat, res: FetchResult)
    requires Outcome(script, DayQuery(today), localZone, DefaultMaxRetries, sent0, sleeps0, Fetched([]))
    requires |sent0| <= |script|
    requires Outcome(script[|sent0|..], DayQuery(yesterday), localZone, DefaultMaxRetries, sent1, sleeps1, res)
    ensures RecentOutcome(script, today, yesterday, localZone, sent0 + sent1, sleeps0 + sleeps1, res,
                          DayFetch(|sent0|, sleeps0, Fetched([])))
  {
    assert (sent0 + sent1)[..|sent0|] == sent0;
    assert (sent0 + sent1)[|sent0|..] == sent1;
  }

  lemma DatesJoined(sent0: seq<Request>, sent1: seq<Request>, date0: string, date1: string)
    requires forall i :: 0 <= i < |sent0| ==> sent0[i].date == Some(date0)
    requires forall i :: 0 <= i < |sent1| ==> sent1[i].date == Some(date1)
    ensures forall i :: 0 <= i < |sent0 + sent1| ==>
      (sent0 + sent1)[i].date == if i < |sent0| then Some(date0) else Some(date1)
  {
    forall i | 0 <= i < |sent0 + sent1|
      ensures (sent0 + sent1)[i].date == if i < |sent0| then Some(date0) else Some(date1)
    {
      if i >= |sent0| {
        assert (sent0 + sent1)[i] == sent1[i - |sent0|];
      }
    }
  }

  /** The fetch of both pipelines' `get_recent_conversations`: today's
      lifelogs, and only when today yields none, one more fetch for
      yesterday on the rest of the script. An exception from either fetch
      ends the pass. */
  method FetchRecent(script: seq<Reply>, today: string, yesterday: string, localZone: string)
    returns (res: FetchResult, dates: seq<string>, sent: seq<Request>, sleeps: nat, ghost first: DayFetch)
    ensures RecentOutcome(script, today, yesterday, localZone, sent, sleeps, res, first)
    ensures dates == [today] || dates == [today, yesterday]
    ensures |dates| == 2 <==> first.result == Fetched([])
    ensures forall i :: 0 <= i < |sent| ==>
      sent[i].date == if i < first.requests then Some(today) else Some(yesterday)
  {
    var sentToday, sleepsToday;
    res, sentToday, sleepsToday := FetchDay(script, today, localZone);
    first := DayFetch(|sentToday|, sleepsToday, res);
    dates, sent, sleeps := [today], sentToday, sleepsToday;
    if res == Fetched([]) {
      var sentYesterday, sleepsYesterday;
      res, sentYesterday, sleepsYesterday := FetchDay(script[|sentToday|..], yesterday, localZone);
      TodayThenYesterday(script, today, yesterday, localZone, sentToday, sleepsToday, sentYesterday, sleepsYesterday, res);
      DatesJoined(sentToday, sentYesterday, today, yesterday);
      dates, sent, sleeps := [today, yesterday], sent + sentYesterday, sleeps + sleepsYesterday;
    } else {
      TodayOnly(script, today, yesterday, localZone, sentToday, sleepsToday, res);
    }
  }

  lemma ChainedDates(script: seq<Reply>, q: Query, localZone: string, sent: seq<Request>)
    requires Chained(script, q, localZone, sent)
    ensures forall i :: 0 <= i < |sent| ==> sent[i].date == q.date
  {
    forall i | 0 <= i < |sent|
      ensures sent[i].date == q.date
    {
      if i > 0 {
        assert sent[i] == RequestFor(q, localZone, NextCursor(ReplyAt(script, i - 1), sent[i - 1].cursor));
      }
    }
  }
}
