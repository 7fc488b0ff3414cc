/** The per-session page cache (`SessionManagement` in the view module).

    The session holds at most one `paging_info` record: the identity of the
    last query recorded (start date, end date, site, search text) and a map
    from page-number strings to cached pages. Recording a page overwrites the
    identity and the one page entry; it never discards the other entries, so
    pages cached under an earlier identity stay in the map and are served
    under the new identity at the same page numbers. */
module PageStore {
  import opened Wrappers

  /** The four filter fields a cached page belongs to. Dates are the
      already-rendered epoch-second strings, compared as strings. */
  datatype Identity = Identity(startDate: string, endDate: string, siteName: string, searchText: string)

  /** One table row: `[title, tags joined by ",", link]`. */
  datatype Row = Row(title: string, tags: string, link: string)

  /** A cached page: its rows and the upstream "more results exist" flag. */
  datatype Page = Page(rows: seq<Row>, hasMore: bool)

  datatype PagingInfo = PagingInfo(identity: Identity, pages: map<string, Page>)

  /** `None` until the first page is recorded in the session. */
  type Store = Option<PagingInfo>

  /** The identity a freshly created `paging_info` starts with. */
  const BlankIdentity: Identity := Identity("", "", "", "")

  /** `get_previous_session_data`: the cached page, provided the session has
      paging information, the page key is present, and each of the four
      identity fields equals the stored one. A stored page is a non-empty
      record, so presence of the key is what the truthiness test decides. */
  function Lookup(store: Store, id: Identity, page: string): (r: Option<Page>)
    ensures r.Some? <==> store.Some? && page in store.value.pages && store.value.identity == id
    ensures r.Some? ==> r.value == store.value.pages[page]
  {
    if && store.Some?
       && page in store.value.pages
       && store.value.identity.startDate == id.startDate
       && store.value.identity.endDate == id.endDate
       && store.value.identity.siteName == id.siteName
       && store.value.identity.searchText == id.searchText
    then Some(store.value.pages[page])
    else None
  }

  /** The pages a store holds, empty before anything is recorded. */
  function Pages(store: Store): map<string, Page> {
    if store.Some? then store.value.pages else map[]
  }

  /** `set_session`: create the paging information if absent, overwrite the
      four identity fields, then write the one page entry. */
  function Record(store: Store, id: Identity, page: string, rows: seq<Row>, hasMore: bool): (s': Store)
    ensures s'.Some? && s'.value.identity == id
    ensures s'.value.pages.Keys == Pages(store).Keys + {page}
    ensures s'.value.pages[page] == Page(rows, hasMore)
    ensures forall q :: q in Pages(store) && q != page ==> s'.value.pages[q] == Pages(store)[q]
  {
    var info := if store.None? then PagingInfo(BlankIdentity, map[]) else store.value;
    var info := info.(identity := id);
    Some(info.(pages := info.pages[page := Page(rows, hasMore)]))
  }

  /** Round trip: what was just recorded is what a lookup under the same
      identity and page returns. */
  lemma LookupRecord(store: Store, id: Identity, page: string, rows: seq<Row>, hasMore: bool)
    ensures Lookup(Record(store, id, page, rows, hasMore), id, page) == Some(Page(rows, hasMore))
  {
  }

  /** Identity isolation: after recording under `id`, every lookup under
      another identity misses, whatever page it asks for. */
  lemma LookupOtherIdentity(store: Store, id: Identity, page: string, rows: seq<Row>, hasMore: bool,
                            id': Identity, page': string)
    requires id' != id
    ensures Lookup(Record(store, id, page, rows, hasMore), id', page') == None
  {
  }

  /** Only page `page` changes: a lookup of any other page under the new
      identity sees exactly what the store held for that page before, with
      no reset when the identity changed. */
  lemma LookupOtherPage(store: Store, id: Identity, page: string, rows: seq<Row>, hasMore: bool, page': string)
    requires page' != page
    ensures Lookup(Record(store, id, page, rows, hasMore), id, page') ==
            (if page' in Pages(store) then Some(Pages(store)[page']) else None)
  {
  }

  /** The consequence of never resetting: a page cached under an old
      identity is served for the new identity once any other page of the new
      identity has been recorded. */
  lemma StalePageServed(store: Store, id: Identity, page: string, rows: seq<Row>, hasMore: bool, stale: string)
    requires store.Some? && store.value.identity != id
    requires stale in store.value.pages && stale != page
    ensures Lookup(store, id, stale) == None
    ensures Lookup(Record(store, id, page, rows, hasMore), id, stale) == Some(store.value.pages[stale])
  {
  }

  /** A first-ever lookup always misses. */
  lemma LookupEmpty(id: Identity, page: string)
    ensures Lookup(None, id, page) == None
  {
  }

  /** Every cached page holds at least one row (only non-empty upstream
      results are ever recorded). */
  predicate NonEmptyPages(store: Store) {
    forall q :: q in Pages(store) ==> |Pages(store)[q].rows| > 0
  }

  lemma RecordKeepsNonEmptyPages(store: Store, id: Identity, page: string, rows: seq<Row>, hasMore: bool)
    requires NonEmptyPages(store) && |rows| > 0
    ensures NonEmptyPages(Record(store, id, page, rows, hasMore))
  {
  }
}
