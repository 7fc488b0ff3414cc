# Page cache and query handling of stackwebapp

This project models, in Dafny, the core of the `stackwebapp` Django
application: the per-session page cache (`SessionManagement`) and the query
endpoint handler (`ListStackQuestions.get`) in `stackapp/views.py`. The
handler turns the table widget's row offset into a page number, serves the
page from the session if that page number is in the session and the
session's current filter (the last one recorded: start date, end date,
site, search text) equals the request's, and otherwise builds the Stack Exchange API
URI, maps the returned items to table rows, caches them and answers with a
`{data, recordsTotal, recordsFiltered}` envelope, or with a 429 when the
reply carries no items.

Modules, leaves first:

- `Wrappers` (`wrappers.dfy`): `Option`, standing in for Python's `None`.
- `Decimal` (`decimal.dfy`): Python's `str(int)`, with `Parse` as its inverse.
  Session page keys are these strings.
- `Paging` (`paging.dfy`): `round(offset / 10) + 1` computed exactly, with
  Python's round-half-to-even rule, and its characterisation as the nearest
  integer with ties to even.
- `Text` (`text.dfy`): `",".join(...)` and `split` as its partner.
- `PageStore` (`page_store.dfy`): the session's `paging_info` as
  `Option<PagingInfo>`, with `Lookup` (`get_previous_session_data`) and
  `Record` (`set_session`).
- `Upstream` (`upstream.dfy`): the request URI and the item-to-row mapping.
  The HTTP call itself is not modelled; its decoded reply is an input.
- `Orchestrator` (`orchestrator.dfy`): `Handle(store, request, reply)`
  returns the response, the new store, the URI fetched (`None` on a cache
  hit) and whether the session was marked modified.

Three behaviours of the code are worth stating up front:

- The page number is `round(offset / 10) + 1`, rounding half to even, not
  `floor(offset / 10) + 1`. Offset 15 gives page 3, and offset 25 also gives page 3.
- `set_session` never clears the page map when the filter changes. It
  overwrites the four identity fields and the one page entry. Pages cached
  under an earlier filter therefore stay, and they are served for the new
  filter at the same page numbers (`PageStore.StalePageServed`,
  `Orchestrator.StalePageAcrossFilters`).
- There is no separate network-error outcome. A reply whose `items` is
  missing or empty gives the 429 response, and so do both "no results" and
  "quota exceeded".

## Model

| member | source | states |
|---|---|---|
| PageStore.Lookup | stackapp/views.py:110-118 | a page is returned iff paging info exists, the page key is present and all four identity fields equal the stored ones; the page returned is the stored one |
| PageStore.Record | stackapp/views.py:74-83 | afterwards paging info exists with the new identity; the keys are the old keys plus the page; the page holds the given rows and flag; every other page keeps its old entry (no reset) |
| PageStore.LookupRecord | stackapp/views.py:74-115 | round trip: a lookup with the identity and page just recorded returns exactly the recorded rows and flag |
| PageStore.LookupOtherIdentity | stackapp/views.py:77-114 | after recording under one identity, a lookup under any other identity misses for every page |
| PageStore.LookupOtherPage | stackapp/views.py:74-83 | after recording page p, a lookup of any other page under the new identity returns whatever the store held for that page before, whatever the old identity was |
| PageStore.StalePageServed | stackapp/views.py:74-83 | a page cached under an old identity misses before and is served for the new identity after another page of the new identity is recorded |
| PageStore.LookupEmpty | stackapp/views.py:110-118 | with no paging info every lookup misses |
| PageStore.RecordKeepsNonEmptyPages | stackapp/views.py:201-211 | recording a non-empty row list keeps every cached page non-empty |
| Orchestrator.AbsentTitleIsEmpty | stackapp/views.py:173 | a request without `title` has the same identity and the same outcome as one with an empty title, for every store and reply, and a miss fetches from the questions path |
| Orchestrator.AbsentSiteIsEmpty | stackapp/views.py:174 | a request without `site_name` has the same identity and the same outcome as one with an empty site name, for every store and reply |
| Decimal.Digits | stackapp/views.py:167 | the rendering of a natural number is a non-empty digit string with no leading zero |
| Decimal.Str | stackapp/views.py:167 | the rendering is non-empty, starts with a minus sign exactly for negative numbers, and is canonical: no leading zero except "0" itself and no "-0" |
| Decimal.ParseDigitsOfDigits | stackapp/views.py:167 | reading back the digit string of n gives n |
| Decimal.ParseStr | stackapp/views.py:167 | `int(str(n)) == n` and `str(n)` is well formed |
| Decimal.StrInjective | stackapp/views.py:167 | two integers render to the same string iff they are equal |
| Decimal.DigitsOfParseDigits | stackapp/views.py:167 | a digit string with no leading zero is the rendering of its own value |
| Decimal.CanonicalIsStr | stackapp/views.py:167 | every canonical decimal string is `str` of its value, so value plus canonical form determine the rendering exactly |
| Paging.RoundTenth | stackapp/views.py:167 | the result is within half a unit of n/10, and on an exact tie it is even |
| Paging.RoundTenthUnique | stackapp/views.py:167 | that half-even rounding is unique, so RoundTenth is Python's round(n / 10) |
| Paging.PageNumber | stackapp/views.py:167 | the page minus one is the half-even rounding of offset/10; every non-negative offset gives a page of at least 1 |
| Paging.PageKey | stackapp/views.py:167 | the session key is a canonical decimal string (no leading zero) whose value is the page number |
| Paging.PageKeyIffSamePage | stackapp/views.py:167 | two offsets share a session key iff they give the same page number |
| Paging.PageNumberMonotone | stackapp/views.py:167 | a larger offset never gives an earlier page |
| Paging.PageNumberExamples | stackapp/views.py:167 | offsets 0, 10, 25 give pages 1, 2, 3; offset 15 gives page 3; offset 5 gives page 1; the key for offset 25 is "3" |
| Text.Join | stackapp/views.py:206 | joining no parts gives "", one part gives that part, and the result starts with the first part |
| Text.SplitJoin | stackapp/views.py:206 | splitting a join of comma-free parts at the separator returns the parts |
| Upstream.ToRow | stackapp/views.py:206 | the row keeps the item's title and link; an empty tag list gives empty tag text; the tag text splits back into the item's tags when they are non-empty and comma-free |
| Upstream.ToRows | stackapp/views.py:204-207 | one row per item, in item order |
| Upstream.RequestUri | stackapp/views.py:188-198 | the URI starts with the API base; it uses the advanced-search path iff the search text is non-empty; it ends with `&title=` and the unencoded search text |
| Upstream.RequestUriFromParams | stackapp/views.py:188-191 | the URI is the base, the path, then site, order=desc, sort=activity, fromdate, end_date, page, pagesize=30, title as key=value pairs joined by `&`, with no encoding |
| Orchestrator.Envelope | stackapp/views.py:220-224 | status 200 with the rows; recordsTotal equals recordsFiltered, and it is 1000 when more results exist and 0 otherwise |
| Orchestrator.Handle | stackapp/views.py:165-228 | fetches iff the lookup misses, from the URI built for the request; answers 429 iff a fetch returned no items, leaving the store unchanged; marks the session modified iff a fetch returned items; on success, the new store holds exactly the rows and flag served |
| Orchestrator.HandleHit | stackapp/views.py:180-186 | on a hit there is no fetch and no store change; the response carries the stored rows and flag |
| Orchestrator.HandleMissWithItems | stackapp/views.py:199-213 | on a miss with items, the built URI is fetched once; the rows mapped from the items are recorded with the upstream flag under the request's identity and page; the session is marked modified |
| Orchestrator.HandleMissWithoutItems | stackapp/views.py:214-218 | on a miss with missing or empty items the response is 429 with "Stackoverflow api limit exceed", and the store is unchanged and not marked modified |
| Orchestrator.RepeatServedFromStore | stackapp/views.py:180-186 | repeating a successful request makes no fetch and gives the identical response, whatever the upstream would reply |
| Orchestrator.OtherIdentityMisses | stackapp/views.py:110-114 | after a success, a request differing in start, end, site or title is a miss and goes upstream |
| Orchestrator.HandleKeepsNonEmptyPages | stackapp/views.py:201-211 | the handler only ever caches non-empty pages |
| Orchestrator.StalePageAcrossFilters | stackapp/views.py:74-83 | take page 1 under filter A, then page 2 under filter B; page 1 under filter B is then served from the store with A's response and no fetch |
| Orchestrator.ExampleRows | stackapp/views.py:204-207 | the example reply's two items become two rows, ("A", "python,django", link) and ("B", "", link) for the item without tags |
| Orchestrator.ExampleTags | stackapp/views.py:206 | the tags ["python", "django"] render as "python,django" |
| Orchestrator.ExampleFirstRequest | stackapp/views.py:165-228 | the example first request fetches from the questions path and answers two rows with recordsTotal 1000 |
| Orchestrator.FirstPageScenario | stackapp/views.py:165-228 | repeating the example request makes no fetch and gives the identical response |

## Left out

- Date parsing (`datetime.strptime(...).timestamp()`, stackapp/views.py:170-171) depends on the local time zone and floating point. `Request` carries the resulting epoch-second strings, which are compared as opaque strings.
- A missing or non-numeric `iDisplayStart`, or a malformed date, raises in Python. `Request` carries the offset as an already-parsed integer.
- The HTTP GET and JSON decoding (stackapp/views.py:199) are network I/O. The decoded reply is the `Reply` parameter. An exception from the call is not modelled, and neither is a `KeyError` when `items` is present but `has_more` is missing. `Reply` always carries a boolean `hasMore`.
- Item fields (stackapp/views.py:206): a missing `title`, `tags` or `link` in an item raises `KeyError`, and a non-string tag makes `",".join` raise `TypeError`. Either aborts the request before anything is recorded. `Item` always carries a title, a list of string tags and a link, so neither failure can occur in the model.
- Upstream.ToRow: a tag that contains a comma cannot be read back from the row's tag text, so the read-back is promised only for comma-free tags. Stack Exchange tags never contain commas.
- Paging.PageNumber: rounds the exact quotient `offset / 10`. Python computes a float quotient, which agrees with it only while the offset is below about 2^53.
- The page entry is briefly `{"data": [], "has_more": None}` before its fields are assigned (stackapp/views.py:81-83). Only the final state is modelled.
- The flag served on a hit is whatever was stored under `has_more`. The upstream flag is modelled as a boolean, so no other JSON value can appear.
- Django session persistence, `request.session.modified`, and DRF `Response`/status objects are plain values: the `modified` flag and integer statuses 200 and 429.
- The site catalog page (`StackAPIView.get`, stackapp/views.py:133-150) is left out. It is file I/O and template rendering.
- The throttle scopes (stackapp/throttle/throttle_view.py) are left out. They only name the scopes, and Django REST framework does the rate limiting.
- The URL routes (stackapp/urls.py) are left out. They are declarations only.
- Races between concurrent requests in one session are not modelled. Each `Handle` is one sequential step.
