/** Search-result filtering of search/search.go: the query URL, the
    profile-link test, and the visited-set dedup over the pages scraped. */
module Search {
  import opened Wrappers
  import opened Storage

  const BaseSearchURL: string := "https://www.linkedin.com/search/results/people/?"
  const SiteOrigin: string := "https://www.linkedin.com"
  const InProfileURL: string := "https://www.linkedin.com/in/"
  const PubProfileURL: string := "https://www.linkedin.com/pub/"

  /** `SearchUserCriteria`. */
  datatype SearchUserCriteria = SearchUserCriteria(
    jobTitle: string, company: string, location: string, keywords: seq<string>, pageLimit: int)

  // ---------------------------------------------------------------------
  // buildSearchURL
  // ---------------------------------------------------------------------

  /** The `url.Values` that `buildSearchURL` fills: the value list of each
      of the three keys it uses. */
  datatype QueryParams = QueryParams(currentCompany: seq<string>, keywords: seq<string>, location: seq<string>)

  /** `sep` between consecutive parts. */
  function JoinWith(sep: string, parts: seq<string>): (r: string)
    ensures parts != [] ==> |parts[0]| <= |r| && r[..|parts[0]|] == parts[0]
  {
    if parts == [] then ""
    else if |parts| == 1 then parts[0]
    else parts[0] + sep + JoinWith(sep, parts[1..])
  }

  /** `key=escape(value)` for each value. */
  function Pairs(key: string, values: seq<string>, escape: string -> string): (r: seq<string>)
    ensures |r| == |values|
    ensures forall i :: 0 <= i < |values| ==> r[i] == key + "=" + escape(values[i])
  {
    if values == [] then [] else [key + "=" + escape(values[0])] + Pairs(key, values[1..], escape)
  }

  /** `url.Values.Encode`: keys in sorted order (`currentCompany`,
      `keywords`, `location`), each value as `key=escaped`, joined by `&`.
      `escape` is `url.QueryEscape`; the keys need no escaping. */
  function Encode(params: QueryParams, escape: string -> string): (r: string)
    // The query is empty exactly when no key has a value.
    ensures r == "" <==> params.currentCompany == [] && params.keywords == [] && params.location == []
    // It opens with the pair of the first key, in sorted order, that has a value.
    ensures params.currentCompany != [] ==>
      var first := "currentCompany=" + escape(params.currentCompany[0]);
      |first| <= |r| && r[..|first|] == first
    ensures params.currentCompany == [] && params.keywords != [] ==>
      var first := "keywords=" + escape(params.keywords[0]);
      |first| <= |r| && r[..|first|] == first
    ensures params.currentCompany == [] && params.keywords == [] && params.location != [] ==>
      var first := "location=" + escape(params.location[0]);
      |first| <= |r| && r[..|first|] == first
  {
    JoinWith("&", Pairs("currentCompany", params.currentCompany, escape)
                + Pairs("keywords", params.keywords, escape)
                + Pairs("location", params.location, escape))
  }

  /** The loop of `buildSearchURL` over `Keywords`: each keyword is appended
      after a space, or replaces the running value while that is empty. */
  function AppendKeywords(current: string, keywords: seq<string>): string
    decreases |keywords|
  {
    if keywords == [] then current
    else AppendKeywords(if current != "" then current + " " + keywords[0] else keywords[0], keywords[1..])
  }

  /** Joining `a + sep + b` as one part or as two is the same. */
  lemma JoinSplit(sep: string, a: string, b: string, rest: seq<string>)
    ensures JoinWith(sep, [a + sep + b] + rest) == JoinWith(sep, [a, b] + rest)
  {
    if rest != [] {
      assert ([a + sep + b] + rest)[1..] == rest;
      assert ([a, b] + rest)[1..] == [b] + rest;
      assert ([b] + rest)[1..] == rest;
    } else {
      assert [a, b][1..] == [b];
    }
  }

  /** After a non-empty running value, the keywords follow it one space
      apart, empty ones included. */
  lemma {:induction false} AppendAfterNonEmpty(current: string, keywords: seq<string>)
    requires current != ""
    ensures AppendKeywords(current, keywords) == JoinWith(" ", [current] + keywords)
    decreases |keywords|
  {
    if keywords != [] {
      var next := current + " " + keywords[0];
      assert next != "" by { assert |next| > 0; }
      AppendAfterNonEmpty(next, keywords[1..]);
      JoinSplit(" ", current, keywords[0], keywords[1..]);
      assert [current, keywords[0]] + keywords[1..] == [current] + keywords;
    }
  }

  /** Starting from an empty value, non-empty keywords are joined by single
      spaces with no leading separator. */
  lemma {:induction false} AppendFromEmpty(keywords: seq<string>)
    requires forall k :: k in keywords ==> k != ""
    ensures AppendKeywords("", keywords) == JoinWith(" ", keywords)
  {
    if keywords != [] {
      assert keywords[0] in keywords;
      AppendAfterNonEmpty(keywords[0], keywords[1..]);
      assert [keywords[0]] + keywords[1..] == keywords;
    }
  }

  /** The parameters `buildSearchURL` collects. `params.Get("keywords")` is
      the job title when it was added and `""` otherwise, so the keyword
      loop starts from the job title either way. */
  function SearchParams(c: SearchUserCriteria): (p: QueryParams)
    ensures p.currentCompany == if c.company != "" then [c.company] else []
    ensures p.location == if c.location != "" then [c.location] else []
    ensures |p.keywords| <= 1
    ensures c.keywords == [] ==> p.keywords == if c.jobTitle != "" then [c.jobTitle] else []
    ensures c.keywords != [] ==> |p.keywords| == 1
    ensures c.keywords != [] && c.jobTitle != "" ==> p.keywords == [JoinWith(" ", [c.jobTitle] + c.keywords)]
    ensures (c.keywords != [] && c.jobTitle == "" && forall k :: k in c.keywords ==> k != "") ==>
      p.keywords == [JoinWith(" ", c.keywords)]
  {
    var p := QueryParams(
      if c.company != "" then [c.company] else [],
      if c.keywords != [] then [AppendKeywords(c.jobTitle, c.keywords)]
      else if c.jobTitle != "" then [c.jobTitle] else [],
      if c.location != "" then [c.location] else []);
    if c.keywords != [] && c.jobTitle != "" then
      AppendAfterNonEmpty(c.jobTitle, c.keywords); p
    else if c.keywords != [] && forall k :: k in c.keywords ==> k != "" then
      AppendFromEmpty(c.keywords); p
    else p
  }

  /** `buildSearchURL`, with `url.QueryEscape` passed in as `escape`. */
  method BuildSearchURL(criteria: SearchUserCriteria, escape: string -> string) returns (u: string)
    ensures u == BaseSearchURL + Encode(SearchParams(criteria), escape)
    ensures (criteria.jobTitle == "" && criteria.company == "" && criteria.location == ""
             && criteria.keywords == []) ==> u == BaseSearchURL
    ensures |u| >= |BaseSearchURL| && u[..|BaseSearchURL|] == BaseSearchURL
  {
    var params := QueryParams([], [], []);
    if criteria.jobTitle != "" {
      params := params.(keywords := params.keywords + [criteria.jobTitle]);
    }
    if criteria.company != "" {
      params := params.(currentCompany := params.currentCompany + [criteria.company]);
    }
    if criteria.location != "" {
      params := params.(location := params.location + [criteria.location]);
    }
    if |criteria.keywords| > 0 {
      var currentKeywords := if params.keywords != [] then params.keywords[0] else "";
      var i := 0;
      while i < |criteria.keywords|
        invariant 0 <= i <= |criteria.keywords|
        invariant AppendKeywords(currentKeywords, criteria.keywords[i..])
               == AppendKeywords(criteria.jobTitle, criteria.keywords)
      {
        var kw := criteria.keywords[i];
        assert criteria.keywords[i..][1..] == criteria.keywords[i + 1..];
        if currentKeywords != "" {
          currentKeywords := currentKeywords + " " + kw;
        } else {
          currentKeywords := kw;
        }
        i := i + 1;
      }
      params := params.(keywords := [currentKeywords]);
    }
    assert params == SearchParams(criteria);
    u := BaseSearchURL + Encode(params, escape);
    assert (BaseSearchURL + Encode(params, escape))[..|BaseSearchURL|] == BaseSearchURL;
  }

  // ---------------------------------------------------------------------
  // isProfileURL and the link filter
  // ---------------------------------------------------------------------

  /** The only two strings `isProfileURL` accepts. */
  const ProfileURLs: set<string> := {InProfileURL, PubProfileURL}

  /** `isProfileURL`: the length test before the two equality tests is
      redundant, and only two URLs pass. */
  function IsProfileURL(u: string): (b: bool)
    ensures b <==> u in ProfileURLs
  {
    |u| > 0 && (u == InProfileURL || u == PubProfileURL)
  }

  /** A found link passes exactly when its path is `/in/` or `/pub/`, so a
      path naming a member, such as `/in/jane`, never does. */
  lemma {:induction false} LinkPassesIffBarePath(path: string)
    ensures IsProfileURL(SiteOrigin + path) <==> path == "/in/" || path == "/pub/"
  {
    assert InProfileURL == SiteOrigin + "/in/";
    assert PubProfileURL == SiteOrigin + "/pub/";
    var u := SiteOrigin + path;
    assert u[|SiteOrigin|..] == path;
    assert (SiteOrigin + "/in/")[|SiteOrigin|..] == "/in/";
    assert (SiteOrigin + "/pub/")[|SiteOrigin|..] == "/pub/";
  }

  /** The parts of a parsed `href` (`url.Parse`); `path` is `URL.Path`. */
  datatype ParsedURL = ParsedURL(scheme: string, host: string, path: string, rawQuery: string, fragment: string)

  /** A result link element: its `href` property could not be read, or it
      reads `raw`, which `url.Parse` turned into `parsed` (None: a parse
      error). */
  datatype LinkElement =
    | HrefUnreadable
    | Href(raw: string, parsed: Option<ParsedURL>)

  /** The profile link built from an element, if any: the site origin
      followed by the path of the `href`. */
  function ProfileLink(el: LinkElement): (r: Option<string>)
    ensures r.None? <==> el.HrefUnreadable? || el.raw == "" || el.parsed.None?
    ensures r.Some? ==> r.value == SiteOrigin + el.parsed.value.path
  {
    match el
    case HrefUnreadable => None
    case Href(raw, parsed) =>
      if raw == "" then None
      else if parsed.None? then None
      else Some(SiteOrigin + parsed.value.path)
  }

  /** The query and the fragment of an `href` play no part in its link. */
  lemma LinkIgnoresQueryAndFragment(raw: string, p: ParsedURL, query: string, fragment: string)
    ensures ProfileLink(Href(raw, Some(p))) == ProfileLink(Href(raw, Some(p.(rawQuery := query, fragment := fragment))))
  {
  }

  /** The links the dedup loop appends, in order, when it starts from the
      visited set `visited` and reads the elements `links`. */
  function Harvest(visited: set<string>, links: seq<LinkElement>): (found: seq<string>)
    ensures |found| <= |links|
  {
    if links == [] then []
    else
      var prefix := links[..|links| - 1];
      var prev := Harvest(visited, prefix);
      var link := ProfileLink(links[|links| - 1]);
      assert forall j :: 0 <= j < |prefix| ==> prefix[j] == links[j];
      if link.Some? && link.value !in visited && link.value !in prev && IsProfileURL(link.value)
      then prev + [link.value]
      else prev
  }

  /** The harvest has no duplicates and only new, passing URLs. */
  lemma {:induction false} HarvestFresh(visited: set<string>, links: seq<LinkElement>)
    ensures NoDuplicates(Harvest(visited, links))
    ensures forall u :: u in Harvest(visited, links) ==> u !in visited && IsProfileURL(u)
  {
    if links != [] {
      HarvestFresh(visited, links[..|links| - 1]);
    }
  }

  /** Some element of `links` leads to `u`. */
  ghost predicate LinksTo(links: seq<LinkElement>, u: string) {
    exists j :: 0 <= j < |links| && ProfileLink(links[j]) == Some(u)
  }

  /** The harvest holds exactly the new, passing URLs some element leads to. */
  lemma {:induction false} HarvestMembers(visited: set<string>, links: seq<LinkElement>)
    ensures forall u :: u in Harvest(visited, links) <==> u !in visited && IsProfileURL(u) && LinksTo(links, u)
  {
    if links != [] {
      var prefix := links[..|links| - 1];
      HarvestMembers(visited, prefix);
      HarvestFresh(visited, links);
      assert forall j :: 0 <= j < |prefix| ==> prefix[j] == links[j];
      forall u | LinksTo(links, u)
        ensures LinksTo(prefix, u) || ProfileLink(links[|links| - 1]) == Some(u)
      {
        var j :| 0 <= j < |links| && ProfileLink(links[j]) == Some(u);
        if j < |prefix| {
          assert ProfileLink(prefix[j]) == Some(u);
        }
      }
    }
  }

  /** One more element extends the harvest by its link exactly when the
      link is new and passes the filter. */
  lemma HarvestStep(visited: set<string>, links: seq<LinkElement>, el: LinkElement)
    ensures Harvest(visited, links + [el]) ==
      var prev := Harvest(visited, links);
      var link := ProfileLink(el);
      if link.Some? && link.value !in visited && link.value !in prev && IsProfileURL(link.value)
      then prev + [link.value]
      else prev
  {
    assert (links + [el])[..|links|] == links;
  }

  /** The links of every page, in page order. */
  function Links(pages: seq<ResultPage>): seq<LinkElement> {
    if pages == [] then [] else Links(pages[..|pages| - 1]) + pages[|pages| - 1].links
  }

  /** The "Next" button under the results: absent, or present and disabled
      or not. */
  datatype NextButton = NoNextButton | NextButton(disabled: bool)

  /** A page of search results: its link elements and its "Next" button. */
  datatype ResultPage = ResultPage(links: seq<LinkElement>, next: NextButton)

  /** The loop stops after a page when there is no "Next" button or the
      button is NOT disabled, as the condition is written. */
  predicate EndsSearch(p: ResultPage) {
    p.next.NoNextButton? || !p.next.disabled
  }

  /** The pages the loop scrapes: at most `limit`, in order, up to and
      including the first one that ends the search. */
  function ScrapedPages(pages: seq<ResultPage>, limit: int): (r: seq<ResultPage>)
    ensures |r| <= |pages|
    // The first page is always scraped when the limit allows one page.
    ensures limit > 0 && pages != [] ==> r != [] && r[0] == pages[0]
    // A page that ends the search is the last one scraped.
    ensures r != [] && EndsSearch(r[0]) ==> r == [pages[0]]
    decreases |pages|
  {
    if limit <= 0 || pages == [] then []
    else if EndsSearch(pages[0]) then [pages[0]]
    else [pages[0]] + ScrapedPages(pages[1..], limit - 1)
  }

  /** The scraped pages are a prefix of the pages, at most `limit` long,
      and every one of them but the last leads on to the next. */
  lemma {:induction false} ScrapedShape(pages: seq<ResultPage>, limit: int)
    ensures var r := ScrapedPages(pages, limit);
      && |r| <= |pages| && r == pages[..|r|]
      && (limit <= 0 ==> r == [])
      && (limit > 0 ==> |r| <= limit)
      && forall i :: 0 <= i < |r| - 1 ==> !EndsSearch(r[i])
    decreases |pages|
  {
    if limit > 0 && pages != [] && !EndsSearch(pages[0]) {
      ScrapedShape(pages[1..], limit - 1);
      var rest := ScrapedPages(pages[1..], limit - 1);
      assert forall i :: 1 <= i < |pages| ==> pages[1..][i - 1] == pages[i];
      assert ScrapedPages(pages, limit) == [pages[0]] + rest;
    }
  }

  lemma LinksStep(pages: seq<ResultPage>, n: nat)
    requires n < |pages|
    ensures Links(pages[..n + 1]) == Links(pages[..n]) + pages[n].links
  {
    assert pages[..n + 1][..n] == pages[..n];
  }

  /** Past a page that does not end the search, the scraped pages run on. */
  lemma ScrapedAdvance(pages: seq<ResultPage>, n: nat, limit: int)
    requires n < |pages| && n < limit && !EndsSearch(pages[n])
    ensures pages[..n] + ScrapedPages(pages[n..], limit - n)
         == pages[..n + 1] + ScrapedPages(pages[n + 1..], limit - (n + 1))
  {
    assert pages[n..][1..] == pages[n + 1..];
    assert pages[..n + 1] == pages[..n] + [pages[n]];
  }

  /** A page that ends the search is the last one scraped. */
  lemma ScrapedStop(pages: seq<ResultPage>, n: nat, limit: int)
    requires n < |pages| && n < limit && EndsSearch(pages[n])
    ensures pages[..n] + ScrapedPages(pages[n..], limit - n) == pages[..n + 1]
  {
    assert pages[..n + 1] == pages[..n] + [pages[n]];
  }

  /** A list without duplicates drawn from a two-element set, and disjoint
      from a subset of it, fits beside that subset. */
  lemma AtMostTwoProfiles(visited: set<string>, found: seq<string>)
    requires visited <= ProfileURLs
    requires NoDuplicates(found)
    requires forall u :: u in found ==> u !in visited && u in ProfileURLs
    ensures |visited| + |found| <= 2
  {
    DistinctCardinality(found);
    var all := visited + Elements(found);
    assert all <= ProfileURLs;
    assert |ProfileURLs| == 2;
    SubsetCardinality(all, ProfileURLs);
    assert visited !! Elements(found);
  }

  lemma SubsetCardinality(a: set<string>, b: set<string>)
    requires a <= b
    ensures |a| <= |b|
  {
    assert b == a + (b - a);
  }

  datatype SearchError = BrowserNotLaunched

  /** `Searcher`. `browserLaunched` stands for a non-nil `Browser`;
      `visited` is the key set of `VisitedProfileURLs`, whose values are
      only ever `true`. */
  class Searcher {
    var browserLaunched: bool
    var visited: set<string>

    /** Only profile URLs are ever marked visited. */
    ghost predicate Valid()
      reads this
    {
      visited <= ProfileURLs
    }

    /** `NewSearcher`. */
    constructor (browserLaunched: bool)
      ensures Valid() && this.browserLaunched == browserLaunched && visited == {}
    {
      this.browserLaunched := browserLaunched;
      visited := {};
    }

    /** The loop of `SearchUsers` over the link elements of one page: each
        new profile link is appended and marked visited. */
    method HarvestPage(links: seq<LinkElement>, ghost v0: set<string>, ghost before: seq<LinkElement>,
                       profileURLs: seq<string>)
      returns (found: seq<string>)
      requires profileURLs == Harvest(v0, before) && visited == v0 + Elements(profileURLs)
      modifies this`visited
      ensures found == Harvest(v0, before + links) && visited == v0 + Elements(found)
    {
      found := profileURLs;
      var j := 0;
      assert before + links[..0] == before;
      while j < |links|
        invariant 0 <= j <= |links|
        invariant found == Harvest(v0, before + links[..j])
        invariant visited == v0 + Elements(found)
      {
        assert before + links[..j + 1] == (before + links[..j]) + [links[j]];
        HarvestStep(v0, before + links[..j], links[j]);
        var link := ProfileLink(links[j]);
        if link.Some? && link.value !in visited && IsProfileURL(link.value) {
          found := found + [link.value];
          visited := visited + {link.value};
        }
        j := j + 1;
      }
      assert links[..j] == links;
    }

    /** The page loop of `SearchUsers`: every page up to `PageLimit` or
        the first that ends the search, harvesting each page's links. */
    method ScrapeResultPages(pageLimit: int, pages: seq<ResultPage>) returns (found: seq<string>)
      requires pageLimit <= |pages|
      modifies this`visited
      ensures found == Harvest(old(visited), Links(ScrapedPages(pages, pageLimit)))
      ensures visited == old(visited) + Elements(found)
    {
      ghost var v0 := visited;
      found := [];
      var pageCount := 0;
      ghost var scraped := ScrapedPages(pages, pageLimit);

      while pageCount < pageLimit
        invariant 0 <= pageCount <= |pages|
        invariant pageCount > 0 ==> pageCount <= pageLimit
        invariant scraped == pages[..pageCount] + ScrapedPages(pages[pageCount..], pageLimit - pageCount)
        invariant found == Harvest(v0, Links(pages[..pageCount]))
        invariant visited == v0 + Elements(found)
      {
        var current := pages[pageCount];
        found := HarvestPage(current.links, v0, Links(pages[..pageCount]), found);
        LinksStep(pages, pageCount);
        if EndsSearch(current) {
          ScrapedStop(pages, pageCount, pageLimit);
          assert found == Harvest(v0, Links(scraped));
          break;
        }
        ScrapedAdvance(pages, pageCount, pageLimit);
        pageCount := pageCount + 1;
      }
      if pageCount >= pageLimit {
        assert pages[..pageCount] + [] == pages[..pageCount];
      }
      assert found == Harvest(v0, Links(scraped));
    }

    /** `SearchUsers`, from the search page on: `pages` are the result pages
        the browser shows in turn (one more after each click on "Next"). */
    method SearchUsers(criteria: SearchUserCriteria, pages: seq<ResultPage>)
      returns (r: Result<seq<string>, SearchError>)
      requires Valid()
      requires criteria.pageLimit <= |pages|
      modifies this`visited
      ensures Valid()
      ensures !browserLaunched ==> r == Failure(BrowserNotLaunched) && visited == old(visited)
      ensures browserLaunched ==>
        r == Success(Harvest(old(visited), Links(ScrapedPages(pages, criteria.pageLimit))))
      ensures r.Success? ==> visited == old(visited) + Elements(r.value)
      ensures r.Success? ==> NoDuplicates(r.value) && forall u :: u in r.value ==> u !in old(visited)
      // Over a Searcher's lifetime at most two URLs are ever returned.
      ensures r.Success? ==> |old(visited)| + |r.value| <= 2
    {
      if !browserLaunched {
        return Failure(BrowserNotLaunched);
      }
      ghost var v0 := visited;
      var profileURLs := ScrapeResultPages(criteria.pageLimit, pages);
      HarvestFresh(v0, Links(ScrapedPages(pages, criteria.pageLimit)));
      AtMostTwoProfiles(v0, profileURLs);
      r := Success(profileURLs);
    }
  }
}
