/** What the view does around the one upstream call: the request URI it
    builds and the mapping from returned items to table rows. The HTTP GET
    and JSON decoding are not modelled; the decoded reply is an input. */
module Upstream {
  import opened Wrappers
  import Decimal
  import Text
  import opened PageStore

  /** One element of the reply's `items` list, reduced to the three fields read. */
  datatype Item = Item(title: string, tags: seq<string>, link: string)

  /** The decoded reply: `items` may be missing (`None`) or empty, and
      `has_more` is the provider's pagination flag. */
  datatype Reply = Reply(items: Option<seq<Item>>, hasMore: bool)

  const BaseUri: string := "https://api.stackexchange.com/2.3"
  const AdvancedPath: string := "/search/advanced"
  const QuestionsPath: string := "/questions"

  /** Questions requested per upstream call (`page_limit`). */
  const PageSize: nat := 30

  /** The item's tag list as `",".join(tags)`. */
  function TagsText(tags: seq<string>): string {
    Text.Join(",", tags)
  }

  /** At least one tag, and no tag containing a comma. */
  predicate ReadableTags(tags: seq<string>) {
    |tags| >= 1 && forall i :: 0 <= i < |tags| ==> Text.FreeOf(tags[i], ',')
  }

  /** `[item["title"], ",".join(item["tags"]), item["link"]]`. The tag list
      can be read back from the row whenever no tag contains a comma. */
  function ToRow(item: Item): (r: Row)
    ensures r.title == item.title && r.link == item.link
    ensures item.tags == [] ==> r.tags == ""
    ensures ReadableTags(item.tags) ==> Text.Split(r.tags, ',') == item.tags
  {
    var r := Row(item.title, TagsText(item.tags), item.link);
    if ReadableTags(item.tags) then Text.SplitJoin(item.tags, ','); r else r
  }

  /** The loop over `items`: one row per item, in item order. */
  function ToRows(items: seq<Item>): (rows: seq<Row>)
    ensures |rows| == |items|
    ensures forall i :: 0 <= i < |items| ==> rows[i] == ToRow(items[i])
  {
    if |items| == 0 then [] else [ToRow(items[0])] + ToRows(items[1..])
  }

  /** Whether the view's truthiness test `response.get("items")` passes:
      the list is present and non-empty. */
  predicate HasItems(reply: Reply) {
    reply.items.Some? && |reply.items.value| > 0
  }

  function Path(searchText: string): string {
    if searchText != "" then AdvancedPath else QuestionsPath
  }

  /** The query string, built by plain concatenation with no URL encoding. */
  function Query(id: Identity, page: string): string {
    "?site=" + (id.siteName + ("&order=desc&sort=activity&fromdate=" + (id.startDate
    + ("&end_date=" + (id.endDate + ("&page=" + (page + ("&pagesize=" + (Decimal.Str(PageSize)
    + ("&title=" + id.searchText))))))))))
  }

  /** The URI's path selects advanced search. */
  predicate IsAdvancedSearch(uri: string) {
    |uri| >= |BaseUri| + |AdvancedPath| && uri[|BaseUri|..|BaseUri| + |AdvancedPath|] == AdvancedPath
  }

  /** The upstream request URI: advanced search exactly when there is search
      text, and the search text, unencoded, at the very end. */
  function RequestUri(id: Identity, page: string): (uri: string)
    ensures |uri| > |BaseUri| && uri[..|BaseUri|] == BaseUri
    ensures IsAdvancedSearch(uri) <==> id.searchText != ""
    ensures |uri| >= |"&title=" + id.searchText|
    ensures uri[|uri| - |"&title=" + id.searchText|..] == "&title=" + id.searchText
  {
    var q := Query(id, page);
    QueryEnds(id, page);
    PathSelects(id.searchText, q);
    BaseUri + Path(id.searchText) + q
  }

  /** The query string opens with the site parameter and closes with the title. */
  lemma QueryEnds(id: Identity, page: string)
    ensures var q := Query(id, page);
            && |q| >= 6 + |"&title=" + id.searchText|
            && q[..6] == "?site="
            && q[|q| - |"&title=" + id.searchText|..] == "&title=" + id.searchText
  {
    NestedEnds("?site=", id.siteName, "&order=desc&sort=activity&fromdate=", id.startDate, "&end_date=",
               id.endDate, "&page=", page, "&pagesize=", Decimal.Str(PageSize), "&title=" + id.searchText);
  }

  /** The first and last pieces of a right-nested concatenation of eleven
      pieces are its prefix and suffix. */
  lemma NestedEnds(p0: string, p1: string, p2: string, p3: string, p4: string, p5: string,
                   p6: string, p7: string, p8: string, p9: string, last: string)
    ensures var q := p0 + (p1 + (p2 + (p3 + (p4 + (p5 + (p6 + (p7 + (p8 + (p9 + last)))))))));
            && |q| >= |p0| + |last|
            && q[..|p0|] == p0
            && q[|q| - |last|..] == last
  {
    var x := p1 + (p2 + (p3 + (p4 + (p5 + (p6 + (p7 + (p8 + (p9 + last))))))));
    var mid := p1 + p2 + p3 + p4 + p5 + p6 + p7 + p8 + p9;
    assert x == mid + last;
    assert (p0 + x) == (p0 + mid) + last;
  }

  /** Whatever follows the path, the path alone decides advanced search. */
  lemma PathSelects(searchText: string, q: string)
    requires |q| >= 6 && q[..6] == "?site="
    ensures var uri := BaseUri + Path(searchText) + q;
            IsAdvancedSearch(uri) <==> searchText != ""
  {
    var uri := BaseUri + Path(searchText) + q;
    assert uri[|BaseUri|..] == Path(searchText) + q;
    assert searchText == "" ==> uri[|BaseUri| + 1] == 'q';
  }

  /** `key=value`. */
  function Field(kv: (string, string)): string {
    kv.0 + "=" + kv.1
  }

  function Fields(params: seq<(string, string)>): (fs: seq<string>)
    ensures |fs| == |params|
    ensures forall i :: 0 <= i < |params| ==> fs[i] == Field(params[i])
  {
    if |params| == 0 then [] else [Field(params[0])] + Fields(params[1..])
  }

  /** The eight request parameters, in the order the view writes them. */
  function Params(id: Identity, page: string): seq<(string, string)> {
    [ ("site", id.siteName), ("order", "desc"), ("sort", "activity"), ("fromdate", id.startDate),
      ("end_date", id.endDate), ("page", page), ("pagesize", "30"), ("title", id.searchText) ]
  }

  /** Reference reading of the URI: base, path, then the eight parameters as
      `key=value` pairs joined by `&`, values inserted verbatim. */
  lemma RequestUriFromParams(id: Identity, page: string)
    ensures RequestUri(id, page) == BaseUri + Path(id.searchText) + "?" + Text.Join("&", Fields(Params(id, page)))
  {
    JoinParams(id, page);
    QueryChain(id, page);
  }

  // The definitions and lemmas from here to the end only break the single
  // string equality of `RequestUriFromParams` into steps small enough for
  // the verifier: `Chain` and `DateChain` are the joined parameter list
  // with its concatenation nested to the right, and each lemma below moves
  // one `&key=value` piece between the literal form and that nesting.

  /** The joined parameter list, nested to the right. */
  function Chain(id: Identity, page: string): string {
    Field(("site", id.siteName)) + "&" + (Field(("order", "desc")) + "&" + (Field(("sort", "activity")) + "&"
    + DateChain(id, page)))
  }

  /** The last five parameters joined, nested to the right. */
  function DateChain(id: Identity, page: string): string {
    Field(("fromdate", id.startDate)) + "&" + (Field(("end_date", id.endDate)) + "&" + (Field(("page", page))
    + "&" + (Field(("pagesize", "30")) + "&" + Field(("title", id.searchText)))))
  }

  lemma JoinParams(id: Identity, page: string)
    ensures Text.Join("&", Fields(Params(id, page))) == Chain(id, page)
  {
    var fs := Fields(Params(id, page));
    assert Text.Join("&", fs[7..]) == fs[7];
    assert Text.Join("&", fs[6..]) == fs[6] + "&" + Text.Join("&", fs[7..]);
    assert Text.Join("&", fs[5..]) == fs[5] + "&" + Text.Join("&", fs[6..]);
    assert Text.Join("&", fs[4..]) == fs[4] + "&" + Text.Join("&", fs[5..]);
    assert Text.Join("&", fs[3..]) == fs[3] + "&" + Text.Join("&", fs[4..]);
    assert Text.Join("&", fs[2..]) == fs[2] + "&" + Text.Join("&", fs[3..]);
    assert Text.Join("&", fs[1..]) == fs[1] + "&" + Text.Join("&", fs[2..]);
  }

  lemma QueryChain(id: Identity, page: string)
    ensures Query(id, page) == "?" + Chain(id, page)
  {
    assert Decimal.Str(PageSize) == "30" by {
      assert Decimal.Digits(3) == "3";
    }
    DateQueryChain(id, page);
    HeadChain(id.siteName, id.startDate, "&end_date=" + (id.endDate + ("&page=" + (page + ("&pagesize=" + ("30"
      + ("&title=" + id.searchText)))))), DateChain(id, page));
  }

  /** The first three parameters of the query string. */
  lemma HeadChain(site: string, start: string, rest: string, x: string)
    requires "&fromdate=" + (start + rest) == "&" + x
    ensures "?site=" + (site + ("&order=desc&sort=activity&fromdate=" + (start + rest)))
            == "?" + (Field(("site", site)) + "&" + (Field(("order", "desc")) + "&" + (Field(("sort", "activity")) + "&" + x)))
  {
    var c1 := Field(("order", "desc")) + "&" + (Field(("sort", "activity")) + "&" + x);
    FixedFields(x);
    SplitLiteral(start + rest);
    SiteStep(site, c1);
  }

  lemma SplitLiteral(y: string)
    ensures "&order=desc&sort=activity&fromdate=" + y == "&order=desc&sort=activity" + ("&fromdate=" + y)
  {
  }

  lemma SiteStep(site: string, c: string)
    ensures "?site=" + (site + ("&" + c)) == "?" + (Field(("site", site)) + "&" + c)
  {
  }

  /** The last five parameters of the query string. */
  lemma DateQueryChain(id: Identity, page: string)
    ensures "&fromdate=" + (id.startDate + ("&end_date=" + (id.endDate + ("&page=" + (page + ("&pagesize=" + ("30"
      + ("&title=" + id.searchText)))))))) == "&" + DateChain(id, page)
  {
    var c7 := Field(("title", id.searchText));
    var c6 := Field(("pagesize", "30")) + "&" + c7;
    var c5 := Field(("page", page)) + "&" + c6;
    var c4 := Field(("end_date", id.endDate)) + "&" + c5;
    assert "&title=" + id.searchText == "&" + c7;
    FieldStep("&pagesize=", "pagesize", "30", c7);
    FieldStep("&page=", "page", page, c6);
    FieldStep("&end_date=", "end_date", id.endDate, c5);
    FieldStep("&fromdate=", "fromdate", id.startDate, c4);
  }

  /** One `&key=value` step of the query string. */
  lemma FieldStep(lit: string, k: string, v: string, rest: string)
    requires lit == "&" + k + "="
    ensures lit + (v + ("&" + rest)) == "&" + (Field((k, v)) + "&" + rest)
  {
  }

  lemma FixedFields(rest: string)
    ensures "&order=desc&sort=activity" + ("&" + rest)
            == "&" + (Field(("order", "desc")) + "&" + (Field(("sort", "activity")) + "&" + rest))
  {
  }
}
