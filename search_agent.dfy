/** `search_agent.py`: web search over two foreign calls, `search_web` and
    `scrape_page`, and the text digest handed to the language model. */
module SearchAgent {
  import opened Wrappers
  import opened JsonValue
  import Text

  /** The foreign calls: `search_web(query, num_results)`, `scrape_page(url)`,
      and `str(x)` for a query that is not a string. */
  datatype Web = Web(
    searchWeb: (Json, int) -> Outcome<seq<string>>,
    scrapePage: string -> Outcome<string>,
    show: Json -> string)

  /** One entry of `results`: `{"rank", "url", "content"}`. */
  datatype Hit = Hit(rank: nat, url: string, content: string)

  /** The dict `search_carbon_info` returns; `error` and `result_count` are
      present only on the failure and the success path respectively. */
  datatype SearchData = SearchData(
    success: bool,
    query: Json,
    results: seq<Hit>,
    error: Option<string>,
    resultCount: Option<nat>)

  /** One entry of a workflow's `search_history`: `{"query", "result", "search_data"}`. */
  datatype HistoryEntry = HistoryEntry(query: Json, result: string, data: SearchData)

  const ContentLimit: nat := 2000
  const PreviewLimit: nat := 500

  /** The hit kept for the link at 1-based position `rank`, if its page has content. */
  function HitFor(rank: nat, url: string, content: string): seq<Hit> {
    if content == "" then [] else [Hit(rank, url, Text.Prefix(content, ContentLimit))]
  }

  /** The results gathered from `links`, scraped in order; the first scrape
      that raises ends the search with its message. */
  function Gathered(web: Web, links: seq<string>): Outcome<seq<Hit>>
    decreases |links|
  {
    if links == [] then Returned([])
    else
      match Gathered(web, links[..|links| - 1])
      case Threw(m) => Threw(m)
      case Returned(hs) =>
        match web.scrapePage(links[|links| - 1])
        case Threw(m) => Threw(m)
        case Returned(c) => Returned(hs + HitFor(|links|, links[|links| - 1], c))
  }

  function Failure(query: Json, message: string): SearchData {
    SearchData(false, query, [], Some(message), None)
  }

  /** `search_carbon_info(query, num_results)`. */
  function SearchCarbonInfo(web: Web, query: Json, n: int): SearchData {
    match web.searchWeb(query, n)
    case Threw(m) => Failure(query, m)
    case Returned(links) =>
      if links == [] then Failure(query, "No results found")
      else
        match Gathered(web, links)
        case Threw(m) => Failure(query, m)
        case Returned(hs) => SearchData(true, query, hs, None, Some(|hs|))
  }

  /** `search_general` delegates to `search_carbon_info` unchanged. */
  function SearchGeneral(web: Web, query: Json, n: int): (d: SearchData)
    ensures d == SearchCarbonInfo(web, query, n)
  {
    SearchCarbonInfo(web, query, n)
  }

  /** The loop over `enumerate(links, 1)`. */
  method GatherResults(web: Web, links: seq<string>) returns (res: Outcome<seq<Hit>>)
    ensures res == Gathered(web, links)
  {
    var results: seq<Hit> := [];
    var i := 0;
    while i < |links|
      invariant 0 <= i <= |links|
      invariant Gathered(web, links[..i]) == Returned(results)
    {
      var seen := links[..i + 1];
      assert seen[..i] == links[..i] && seen[i] == links[i] && |seen| == i + 1;
      match web.scrapePage(links[i]) {
        case Threw(m) =>
          GatheredThrowsOnward(web, links, i + 1);
          return Threw(m);
        case Returned(content) =>
          assert Gathered(web, seen) == Returned(results + HitFor(i + 1, links[i], content));
          if content != "" {
            results := results + [Hit(i + 1, links[i], Text.Prefix(content, ContentLimit))];
          } else {
            assert results + HitFor(i + 1, links[i], content) == results;
          }
      }
      i := i + 1;
    }
    assert links[..i] == links;
    res := Returned(results);
  }

  /** Once a prefix of the links raises, every longer prefix raises the same. */
  lemma {:induction false} GatheredThrowsOnward(web: Web, links: seq<string>, k: nat)
    requires k <= |links| && Gathered(web, links[..k]).Threw?
    ensures Gathered(web, links) == Gathered(web, links[..k])
    decreases |links| - k
  {
    if k < |links| {
      assert links[..k + 1][..k] == links[..k];
      GatheredThrowsOnward(web, links, k + 1);
    } else {
      assert links[..k] == links;
    }
  }

  method SearchCarbonInfoRun(web: Web, query: Json, n: int) returns (d: SearchData)
    ensures d == SearchCarbonInfo(web, query, n)
  {
    match web.searchWeb(query, n) {
      case Threw(m) =>
        return Failure(query, m);
      case Returned(links) =>
        if links == [] {
          return Failure(query, "No results found");
        }
        var res := GatherResults(web, links);
        match res {
          case Threw(m) =>
            d := Failure(query, m);
          case Returned(hs) =>
            d := SearchData(true, query, hs, None, Some(|hs|));
        }
    }
  }

  // ---------------------------------------------------------------------
  // What the gathered results are
  // ---------------------------------------------------------------------

  /** `h` is the hit kept for the link at its rank: the page was scraped,
      had content, and `h` holds that content cut to 2000 characters. */
  predicate HitOf(web: Web, links: seq<string>, h: Hit) {
    && 1 <= h.rank <= |links|
    && h.url == links[h.rank - 1]
    && web.scrapePage(h.url).Returned?
    && h.content == Text.Prefix(web.scrapePage(h.url).value, ContentLimit)
    && h.content != ""
  }

  /** Every result is the hit of a link, under its 1-based position, and
      there are no more results than links. */
  lemma {:induction false} GatheredHitsSound(web: Web, links: seq<string>)
    requires Gathered(web, links).Returned?
    ensures |Gathered(web, links).value| <= |links|
    ensures forall h :: h in Gathered(web, links).value ==> HitOf(web, links, h)
    decreases |links|
  {
    if links != [] {
      var init := links[..|links| - 1];
      GatheredHitsSound(web, init);
      var hs := Gathered(web, init).value;
      forall h | h in hs ensures HitOf(web, links, h) {
        assert HitOf(web, init, h);
        assert links[h.rank - 1] == init[h.rank - 1];
      }
    }
  }

  /** Ranks strictly increase along the results. */
  lemma {:induction false} GatheredRanksIncrease(web: Web, links: seq<string>)
    requires Gathered(web, links).Returned?
    ensures var hs := Gathered(web, links).value;
      forall j, k :: 0 <= j < k < |hs| ==> hs[j].rank < hs[k].rank
    decreases |links|
  {
    if links != [] {
      var init := links[..|links| - 1];
      GatheredRanksIncrease(web, init);
      GatheredHitsSound(web, init);
      var hs := Gathered(web, init).value;
      forall h | h in hs ensures h.rank < |links| {
        assert HitOf(web, init, h);
      }
    }
  }

  /** Every link was scraped, and a link has a result exactly when its page
      had content. */
  lemma {:induction false} GatheredHitsComplete(web: Web, links: seq<string>)
    requires Gathered(web, links).Returned?
    ensures forall p :: 0 <= p < |links| ==> web.scrapePage(links[p]).Returned?
    ensures var hs := Gathered(web, links).value;
      forall p :: 0 <= p < |links| ==>
        (web.scrapePage(links[p]).value != "" <==> exists h :: h in hs && h.rank == p + 1)
    decreases |links|
  {
    if links != [] {
      var init := links[..|links| - 1];
      GatheredHitsComplete(web, init);
      GatheredHitsSound(web, init);
      var hs := Gathered(web, init).value;
      var c := web.scrapePage(links[|links| - 1]).value;
      var all := hs + HitFor(|links|, links[|links| - 1], c);
      assert Gathered(web, links).value == all;
      forall p | 0 <= p < |links|
        ensures web.scrapePage(links[p]).Returned?
        ensures web.scrapePage(links[p]).value != "" <==> exists h :: h in all && h.rank == p + 1
      {
        if p < |init| {
          assert links[p] == init[p];
          forall h | h in HitFor(|links|, links[|links| - 1], c) ensures h.rank != p + 1 { }
        } else {
          forall h | h in hs ensures h.rank != p + 1 {
            assert HitOf(web, init, h);
          }
          if c != "" {
            assert all[|hs|] in all;
          }
        }
      }
    }
  }

  /** An empty scrape does not fail the search: with every page empty the
      search still succeeds, with no results. */
  lemma {:induction false} AllEmptyPages(web: Web, links: seq<string>)
    requires forall p :: 0 <= p < |links| ==> web.scrapePage(links[p]) == Returned("")
    ensures Gathered(web, links) == Returned([])
    decreases |links|
  {
    if links != [] {
      AllEmptyPages(web, links[..|links| - 1]);
      assert web.scrapePage(links[|links| - 1]) == Returned("");
      assert HitFor(|links|, links[|links| - 1], "") == [];
      var none: seq<Hit> := [];
      assert none + HitFor(|links|, links[|links| - 1], "") == none;
    }
  }

  /** The three outcomes of a search. */
  lemma SearchOutcomes(web: Web, query: Json, n: int)
    ensures var d := SearchCarbonInfo(web, query, n);
      && d.query == query
      && (web.searchWeb(query, n) == Returned([]) ==> d == Failure(query, "No results found"))
      && (web.searchWeb(query, n).Threw? ==> d == Failure(query, web.searchWeb(query, n).message))
      && (d.success <==> web.searchWeb(query, n).Returned? && web.searchWeb(query, n).value != []
                         && Gathered(web, web.searchWeb(query, n).value).Returned?)
      && (d.success ==> d.error == None && d.resultCount == Some(|d.results|)
                        && |d.results| <= |web.searchWeb(query, n).value|)
      && (!d.success ==> d.results == [] && d.error.Some? && d.resultCount == None)
  {
    if web.searchWeb(query, n).Returned? && web.searchWeb(query, n).value != []
       && Gathered(web, web.searchWeb(query, n).value).Returned? {
      GatheredHitsSound(web, web.searchWeb(query, n).value);
    }
  }

  // ---------------------------------------------------------------------
  // format_search_result
  // ---------------------------------------------------------------------

  /** `f"{x}"`: a string as itself, anything else through `str`. */
  function Show(web: Web, x: Json): string {
    if x.JStr? then x.s else web.show(x)
  }

  /** One result's paragraph: `[rank] url`, then at most 500 characters of content. */
  function Block(h: Hit): string {
    "[" + Text.IntToString(h.rank) + "] " + h.url + "\n" + Text.Prefix(h.content, PreviewLimit) + "...\n\n"
  }

  /** The paragraphs of a list of results, one per result. */
  function Paragraphs(hs: seq<Hit>): (ps: seq<string>)
    ensures |ps| == |hs|
  {
    seq(|hs|, i requires 0 <= i < |hs| => Block(hs[i]))
  }

  /** `"".join(ss)`. */
  function Concat(ss: seq<string>): string
    decreases |ss|
  {
    if ss == [] then "" else Concat(ss[..|ss| - 1]) + ss[|ss| - 1]
  }

  const FailedPrefix: string := "Search failed: "
  const DigestPrefix: string := "Search: "

  /** `format_search_result(search_data)`. */
  function Digest(web: Web, d: SearchData): string {
    if !d.success then FailedPrefix + d.error.GetOr("Unknown error")
    else DigestPrefix + Show(web, d.query) + "\n\n" + Concat(Paragraphs(d.results))
  }

  method FormatSearchResult(web: Web, d: SearchData) returns (summary: string)
    ensures summary == Digest(web, d)
  {
    if !d.success {
      return FailedPrefix + d.error.GetOr("Unknown error");
    }
    summary := AppendParagraphs(DigestPrefix + Show(web, d.query) + "\n\n", d.results);
  }

  /** The loop that adds one paragraph per result to the digest. */
  method AppendParagraphs(head: string, hits: seq<Hit>) returns (summary: string)
    ensures summary == head + Concat(Paragraphs(hits))
  {
    ghost var ps := Paragraphs(hits);
    summary := head;
    var i := 0;
    while i < |hits|
      invariant 0 <= i <= |hits|
      invariant summary == head + Concat(ps[..i])
    {
      ConcatStep(ps, i);
      Text.AppendAssoc(head, Concat(ps[..i]), ps[i]);
      summary := summary + Block(hits[i]);
      i := i + 1;
    }
    assert ps[..i] == ps;
  }

  lemma ConcatStep(ss: seq<string>, i: nat)
    requires i < |ss|
    ensures Concat(ss[..i + 1]) == Concat(ss[..i]) + ss[i]
  {
    assert ss[..i + 1][..i] == ss[..i];
  }

  /** The concatenation of two lists is that of the first, then that of the second. */
  lemma {:induction false} ConcatAppend(a: seq<string>, b: seq<string>)
    ensures Concat(a + b) == Concat(a) + Concat(b)
    decreases |b|
  {
    if b == [] {
      assert a + b == a;
    } else {
      var b' := b[..|b| - 1];
      assert (a + b)[..|a + b| - 1] == a + b';
      assert (a + b)[|a + b| - 1] == b[|b| - 1];
      ConcatAppend(a, b');
      Text.AppendAssoc(Concat(a), Concat(b'), b[|b| - 1]);
    }
  }

  /** A successful digest is its header followed by one paragraph per result,
      in order: result `k`'s paragraph sits right after those of results `0..k`. */
  lemma DigestParagraphs(web: Web, d: SearchData, k: nat)
    requires d.success && k < |d.results|
    ensures Digest(web, d)
         == DigestPrefix + Show(web, d.query) + "\n\n"
            + Concat(Paragraphs(d.results[..k])) + Block(d.results[k]) + Concat(Paragraphs(d.results[k + 1..]))
  {
    var hs := d.results;
    var head := DigestPrefix + Show(web, d.query) + "\n\n";
    var before, b, after := Paragraphs(hs[..k]), Block(hs[k]), Paragraphs(hs[k + 1..]);
    ParagraphsSplit(hs, k);
    ConcatSplit(before, b, after);
    Text.AppendAssoc(head, Concat(before) + b, Concat(after));
    Text.AppendAssoc(head, Concat(before), b);
  }

  lemma ParagraphsSplit(hs: seq<Hit>, k: nat)
    requires k < |hs|
    ensures Paragraphs(hs) == Paragraphs(hs[..k]) + [Block(hs[k])] + Paragraphs(hs[k + 1..])
  {
  }

  lemma ConcatSplit(before: seq<string>, b: string, after: seq<string>)
    ensures Concat(before + [b] + after) == Concat(before) + b + Concat(after)
  {
    ConcatAppend(before + [b], after);
    ConcatAppend(before, [b]);
    assert Concat([b]) == b by {
      assert [b][..0] == [];
    }
  }

  /** A failed search reads "Search failed: " and its message, or
      "Unknown error" when it carries none; a digest of either kind begins
      with its own marker. */
  lemma DigestMarkers(web: Web, d: SearchData)
    ensures !d.success && d.error.Some? ==> Digest(web, d) == FailedPrefix + d.error.value
    ensures !d.success && d.error.None? ==> Digest(web, d) == "Search failed: Unknown error"
    ensures d.success ==> Digest(web, d)[..|DigestPrefix|] == DigestPrefix
    ensures !d.success ==> Digest(web, d)[..|FailedPrefix|] == FailedPrefix
  {
  }

  /** With no links found the digest reads "Search failed: No results found". */
  lemma NoLinksDigest(web: Web, query: Json, n: int)
    requires web.searchWeb(query, n) == Returned([])
    ensures Digest(web, SearchCarbonInfo(web, query, n)) == "Search failed: No results found"
  {
  }
}
