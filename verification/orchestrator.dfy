/** The query endpoint's handler (`ListStackQuestions.get`) as a pure
    function from the session store, the request and the upstream reply to
    the response, the new store, the URI fetched (if any) and whether the
    session was marked modified. The upstream reply is only consulted when
    the store misses. */
module Orchestrator {
  import opened Wrappers
  import Paging
  import opened PageStore
  import opened Upstream

  /** The request's query parameters. The two dates are the epoch-second
      strings the view derives from them; `title` and `site_name` may be
      absent and then default to the empty string. */
  datatype Request = Request(displayStart: int, startDate: string, endDate: string,
                             title: Option<string>, siteName: Option<string>)

  datatype Body =
    | Table(data: seq<Row>, recordsTotal: int, recordsFiltered: int)
    | Messages(lines: seq<string>)

  datatype Response = Response(status: int, body: Body)

  datatype Outcome = Outcome(response: Response, store: Store, fetched: Option<string>, modified: bool)

  const StatusOk: int := 200
  const StatusTooManyRequests: int := 429

  /** The stand-in total reported while the provider says more results exist. */
  const MoreSentinel: int := 1000

  const LimitMessage: string := "Stackoverflow api limit exceed"

  /** `request.GET.get(name, "")`: an absent parameter reads as empty. */
  function Param(p: Option<string>): string {
    match p
    case Some(v) => v
    case None => ""
  }

  /** The filter identity a request is cached under. */
  function IdentityOf(req: Request): Identity {
    Identity(req.startDate, req.endDate, Param(req.siteName), Param(req.title))
  }

  /** An absent `title` behaves exactly like an empty one: same identity,
      hence the same cached pages and the same outcome for every store and
      reply, and a miss goes to the questions path, not advanced search. */
  lemma AbsentTitleIsEmpty(store: Store, req: Request, reply: Reply)
    ensures IdentityOf(req.(title := None)) == IdentityOf(req.(title := Some("")))
    ensures IdentityOf(req.(title := None)).searchText == ""
    ensures Handle(store, req.(title := None), reply) == Handle(store, req.(title := Some("")), reply)
    ensures var o := Handle(store, req.(title := None), reply);
            o.fetched.Some? ==> !IsAdvancedSearch(o.fetched.value)
  {
  }

  /** An absent `site_name` behaves exactly like an empty one: same identity,
      hence the same cached pages and the same outcome for every store and reply. */
  lemma AbsentSiteIsEmpty(store: Store, req: Request, reply: Reply)
    ensures IdentityOf(req.(siteName := None)) == IdentityOf(req.(siteName := Some("")))
    ensures IdentityOf(req.(siteName := None)).siteName == ""
    ensures Handle(store, req.(siteName := None), reply) == Handle(store, req.(siteName := Some("")), reply)
  {
  }

  /** The session key of the page a request asks for. */
  function KeyOf(req: Request): string {
    Paging.PageKey(req.displayStart)
  }

  /** The success envelope: the rows, with both record counts equal, and
      positive exactly when more results exist. */
  function Envelope(rows: seq<Row>, hasMore: bool): (r: Response)
    ensures r.status == StatusOk && r.body.Table? && r.body.data == rows
    ensures r.body.recordsTotal == r.body.recordsFiltered
    ensures r.body.recordsTotal == 0 || r.body.recordsTotal == MoreSentinel
    ensures r.body.recordsTotal == MoreSentinel <==> hasMore
  {
    var total := if hasMore then MoreSentinel else 0;
    Response(StatusOk, Table(rows, total, total))
  }

  /** The 429 reply given when the upstream returns no items. */
  const LimitExceeded: Response := Response(StatusTooManyRequests, Messages([LimitMessage]))

  function Handle(store: Store, req: Request, reply: Reply): (o: Outcome)
    ensures o.fetched.None? <==> Lookup(store, IdentityOf(req), KeyOf(req)).Some?
    ensures o.fetched.Some? ==> o.fetched.value == RequestUri(IdentityOf(req), KeyOf(req))
    ensures o.response.status == StatusTooManyRequests <==> o.fetched.Some? && !HasItems(reply)
    ensures o.response.status == StatusTooManyRequests ==> o.response == LimitExceeded && o.store == store
    ensures o.modified <==> o.fetched.Some? && HasItems(reply)
    ensures o.response.status != StatusTooManyRequests ==>
              && o.response.status == StatusOk && o.response.body.Table?
              && Lookup(o.store, IdentityOf(req), KeyOf(req))
                 == Some(Page(o.response.body.data, o.response.body.recordsTotal == MoreSentinel))
  {
    var id := IdentityOf(req);
    var key := KeyOf(req);
    match Lookup(store, id, key)
    case Some(cached) =>
      Outcome(Envelope(cached.rows, cached.hasMore), store, None, false)
    case None =>
      var uri := RequestUri(id, key);
      if HasItems(reply) then
        var rows := ToRows(reply.items.value);
        Outcome(Envelope(rows, reply.hasMore), Record(store, id, key, rows, reply.hasMore), Some(uri), true)
      else
        Outcome(LimitExceeded, store, Some(uri), false)
  }

  /** Cache hit: no upstream request, store and session untouched, and the
      stored rows and flag served as they are. */
  lemma HandleHit(store: Store, req: Request, reply: Reply)
    requires Lookup(store, IdentityOf(req), KeyOf(req)).Some?
    ensures var cached := Lookup(store, IdentityOf(req), KeyOf(req)).value;
            Handle(store, req, reply) == Outcome(Envelope(cached.rows, cached.hasMore), store, None, false)
  {
  }

  /** Cache miss with items: one request to the URI the view builds, the
      rows mapped from the items in order, recorded under the request's
      identity and page together with the upstream flag, session marked modified. */
  lemma HandleMissWithItems(store: Store, req: Request, reply: Reply)
    requires Lookup(store, IdentityOf(req), KeyOf(req)).None?
    requires HasItems(reply)
    ensures var o := Handle(store, req, reply);
            var rows := ToRows(reply.items.value);
            && o.fetched == Some(RequestUri(IdentityOf(req), KeyOf(req)))
            && |rows| == |reply.items.value|
            && o.response == Envelope(rows, reply.hasMore)
            && o.store == Record(store, IdentityOf(req), KeyOf(req), rows, reply.hasMore)
            && o.modified
  {
  }

  /** Cache miss with the item list missing or empty: 429 with the limit
      message, store untouched, nothing marked modified. */
  lemma HandleMissWithoutItems(store: Store, req: Request, reply: Reply)
    requires Lookup(store, IdentityOf(req), KeyOf(req)).None?
    requires reply.items.None? || reply.items.value == []
    ensures var o := Handle(store, req, reply);
            && o.response == Response(429, Messages(["Stackoverflow api limit exceed"]))
            && o.store == store && !o.modified && o.fetched.Some?
  {
  }

  /** Repeating a request that succeeded is served from the store: no
      upstream request, whatever the upstream would now say, and the same response. */
  lemma RepeatServedFromStore(store: Store, req: Request, reply: Reply, reply': Reply)
    requires Handle(store, req, reply).response.status == StatusOk
    ensures var o := Handle(store, req, reply);
            var o' := Handle(o.store, req, reply');
            o'.fetched.None? && o'.response == o.response && o'.store == o.store && !o'.modified
  {
  }

  /** After a success, a request whose filter differs in any of the four
      identity fields (a new title, say) misses and goes upstream, even for
      a page number that is cached. */
  lemma OtherIdentityMisses(store: Store, req: Request, reply: Reply, req': Request, reply': Reply)
    requires Handle(store, req, reply).response.status == StatusOk
    requires IdentityOf(req') != IdentityOf(req)
    ensures Handle(Handle(store, req, reply).store, req', reply').fetched.Some?
  {
  }

  /** Only ever non-empty pages are cached. */
  lemma HandleKeepsNonEmptyPages(store: Store, req: Request, reply: Reply)
    requires NonEmptyPages(store)
    ensures NonEmptyPages(Handle(store, req, reply).store)
  {
  }

  /** Because recording never clears the other pages, after fetching page
      1 under one filter and page 2 under another, page 1 of the second
      filter is served from the store with the first filter's rows and no
      upstream request. */
  lemma StalePageAcrossFilters(req1: Request, req2: Request, req3: Request, reply1: Reply, reply2: Reply, reply3: Reply)
    requires HasItems(reply1) && HasItems(reply2)
    requires IdentityOf(req1) != IdentityOf(req2) && IdentityOf(req3) == IdentityOf(req2)
    requires KeyOf(req1) == KeyOf(req3) && KeyOf(req2) != KeyOf(req1)
    ensures var o1 := Handle(None, req1, reply1);
            var o2 := Handle(o1.store, req2, reply2);
            var o3 := Handle(o2.store, req3, reply3);
            o3.fetched.None? && o3.response == o1.response
  {
  }

  /** Worked example: page 1 of "stackoverflow", no title, epoch-second
      dates; the upstream replies with two items and more to come. */
  const ExampleRequest: Request := Request(0, "1672531200", "1675123200", None, Some("stackoverflow"))
  const ExampleReply: Reply :=
    Reply(Some([Item("A", ["python", "django"], "https://x/1"), Item("B", [], "https://x/2")]), true)

  lemma ExampleRows()
    ensures var rows := ToRows(ExampleReply.items.value);
            |rows| == 2 && rows[0] == Row("A", "python,django", "https://x/1") && rows[1] == Row("B", "", "https://x/2")
  {
    ExampleTags();
    assert ToRows(ExampleReply.items.value)[0] == ToRow(ExampleReply.items.value[0]);
    assert ToRows(ExampleReply.items.value)[1] == ToRow(ExampleReply.items.value[1]);
  }

  lemma ExampleTags()
    ensures TagsText(["python", "django"]) == "python,django"
  {
  }

  lemma ExampleFirstRequest()
    ensures var o := Handle(None, ExampleRequest, ExampleReply);
            && o.fetched.Some? && !Upstream.IsAdvancedSearch(o.fetched.value)
            && o.response.status == 200 && |o.response.body.data| == 2
            && o.response.body.data[0] == Row("A", "python,django", "https://x/1")
            && o.response.body.recordsTotal == 1000
  {
    ExampleRows();
    HandleMissWithItems(None, ExampleRequest, ExampleReply);
  }

  /** The example request gets two rows and a total of 1000; the same
      request again is served from the store with identical data and no
      upstream request, whatever the upstream would now reply. */
  lemma FirstPageScenario(later: Reply)
    ensures var o1 := Handle(None, ExampleRequest, ExampleReply);
            var o2 := Handle(o1.store, ExampleRequest, later);
            && o1.response.status == 200 && |o1.response.body.data| == 2
            && o1.response.body.recordsTotal == 1000
            && o2.fetched.None? && o2.response == o1.response
  {
  }
}
