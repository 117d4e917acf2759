/** Finding the route of a request (routing.c): exact matches by hash first, then every
    pattern; API endpoints before pages. */
module Routing {
  import opened Options
  import opened HashTables
  import opened RouteParams

  /** A declared page and a declared API endpoint; `id` stands for the syntax node. */
  datatype Page = Page(route: string, id: nat)
  datatype Api = Api(route: string, verb: string, id: nat)

  /** The hash of a name; an endpoint's slot mixes the hashes of its route and method. */
  datatype Hashing = Hashing(page: string -> nat, api: ((string, string)) -> nat)

  function PageEntries(pages: seq<Page>): seq<Entry<string, Page>> {
    seq(|pages|, i requires 0 <= i < |pages| => Entry(pages[i].route, pages[i]))
  }

  function ApiEntries(apis: seq<Api>): seq<Entry<(string, string), Api>> {
    seq(|apis|, i requires 0 <= i < |apis| => Entry((apis[i].route, apis[i].verb), apis[i]))
  }

  predicate PageMatches(p: Page, url: string) {
    Match(p.route, url).matched
  }

  predicate ApiMatches(a: Api, url: string, verb: string) {
    Match(a.route, url).matched && a.verb == verb
  }

  /** The entry was found by its pattern, and left these parameters for the handler. */
  predicate PageHit(e: Entry<string, Page>, url: string, page: Page, params: seq<Param>) {
    e.value == page && Match(e.key, url).matched && params == Stored(Match(e.key, url).params)
  }

  predicate ApiHit(e: Entry<(string, string), Api>, url: string, verb: string, api: Api, params: seq<Param>) {
    e.value == api && Match(e.key.0, url).matched && e.key.1 == verb && params == Stored(Match(e.key.0, url).params)
  }

  /** A website object with its tables built. */
  class Router {
    const pages: Table<string, Page>
    const apis: Table<(string, string), Api>
    const params: Params

    ghost predicate Built(pageList: seq<Page>, apiList: seq<Api>, h: Hashing)
      reads pages.chains, apis.chains
    {
      && pages.chains[..] == Build(PageEntries(pageList), h.page)
      && apis.chains[..] == Build(ApiEntries(apiList), h.api)
    }

    /** buildRouteMaps, for pages and API endpoints. */
    constructor (pageList: seq<Page>, apiList: seq<Api>, h: Hashing)
      ensures Built(pageList, apiList, h)
      ensures fresh(params)
    {
      var pageTable := new Table<string, Page>();
      pageTable.Fill(PageEntries(pageList), h.page);
      var apiTable := new Table<(string, string), Api>();
      apiTable.Fill(ApiEntries(apiList), h.api);
      pages := pageTable;
      apis := apiTable;
      params := new Params();
    }

    /** The loop over one chain that tries each page's route as a pattern. */
    method ScanPages(chain: seq<Entry<string, Page>>, url: string) returns (r: Option<Page>)
      modifies params
      ensures r.None? ==> forall e :: e in chain ==> !Match(e.key, url).matched
      ensures r.Some? ==> exists i :: 0 <= i < |chain| && PageHit(chain[i], url, r.value, params.params)
    {
      var i := 0;
      while i < |chain|
        invariant 0 <= i <= |chain|
        invariant forall j :: 0 <= j < i ==> !Match(chain[j].key, url).matched
      {
        var ok := params.Parse(chain[i].key, url);
        if ok {
          return Some(chain[i].value);
        }
        i := i + 1;
      }
      r := None;
    }

    /** findPage: a page whose route is the URL itself wins, and of several the one declared
        last; otherwise any page whose pattern matches; nothing exactly when none does. */
    method FindPage(url: string, ghost pageList: seq<Page>, ghost apiList: seq<Api>, h: Hashing)
      returns (r: Option<Page>)
      requires Built(pageList, apiList, h)
      modifies params
      ensures Built(pageList, apiList, h)
      ensures var exact := Last(PageEntries(pageList), url);
        && (exact.Some? ==> r == exact)
        && (r.Some? ==> params.params == if exact.Some? then [] else Stored(Match(r.value.route, url).params))
      ensures r.Some? ==> r.value in pageList && PageMatches(r.value, url)
      ensures r.None? <==> forall p :: p in pageList ==> !PageMatches(p, url)
    {
      ghost var entries := PageEntries(pageList);
      r := pages.Lookup(url, h.page);
      FindsLast(entries, h.page, url);
      LastNone(entries, url);
      if r.Some? {
        LastPage(pageList, url);
        MatchesItself(url);
        params.params := [];
        return;
      }
      var b := 0;
      while b < HASH_TABLE_SIZE
        invariant 0 <= b <= HASH_TABLE_SIZE && Built(pageList, apiList, h) && r.None?
        invariant forall p :: p in pageList && Slot(h.page, p.route) < b ==> !PageMatches(p, url)
      {
        BuildPartitions(entries, h.page, b);
        var chain := pages.chains[b];
        r := ScanPages(chain, url);
        if r.Some? {
          var i :| 0 <= i < |chain| && PageHit(chain[i], url, r.value, params.params);
          assert chain[i] in entries;
          return;
        }
        forall p | p in pageList && Slot(h.page, p.route) == b ensures !PageMatches(p, url) {
          var k :| 0 <= k < |pageList| && pageList[k] == p;
          assert entries[k] in entries;
        }
        b := b + 1;
      }
    }

    method ScanApis(chain: seq<Entry<(string, string), Api>>, url: string, verb: string) returns (r: Option<Api>)
      modifies params
      ensures r.None? ==> forall e :: e in chain ==> !(Match(e.key.0, url).matched && e.key.1 == verb)
      ensures r.Some? ==> exists i :: 0 <= i < |chain| && ApiHit(chain[i], url, verb, r.value, params.params)
    {
      var i := 0;
      while i < |chain|
        invariant 0 <= i <= |chain|
        invariant forall j :: 0 <= j < i ==> !(Match(chain[j].key.0, url).matched && chain[j].key.1 == verb)
      {
        var ok := params.Parse(chain[i].key.0, url);
        if ok && chain[i].key.1 == verb {
          return Some(chain[i].value);
        }
        i := i + 1;
      }
      r := None;
    }

    /** findApi: like findPage, with the method compared as well. */
    method FindApi(url: string, verb: string, ghost pageList: seq<Page>, ghost apiList: seq<Api>, h: Hashing)
      returns (r: Option<Api>)
      requires Built(pageList, apiList, h)
      modifies params
      ensures Built(pageList, apiList, h)
      ensures var exact := Last(ApiEntries(apiList), (url, verb));
        && (exact.Some? ==> r == exact)
        && (r.Some? ==> params.params == if exact.Some? then [] else Stored(Match(r.value.route, url).params))
      ensures r.Some? ==> r.value in apiList && ApiMatches(r.value, url, verb)
      ensures r.None? <==> forall a :: a in apiList ==> !ApiMatches(a, url, verb)
    {
      ghost var entries := ApiEntries(apiList);
      r := apis.Lookup((url, verb), h.api);
      FindsLast(entries, h.api, (url, verb));
      LastNone(entries, (url, verb));
      if r.Some? {
        LastApi(apiList, url, verb);
        MatchesItself(url);
        params.params := [];
        return;
      }
      var b := 0;
      while b < HASH_TABLE_SIZE
        invariant 0 <= b <= HASH_TABLE_SIZE && Built(pageList, apiList, h) && r.None?
        invariant forall a :: a in apiList && Slot(h.api, (a.route, a.verb)) < b ==> !ApiMatches(a, url, verb)
      {
        BuildPartitions(entries, h.api, b);
        var chain := apis.chains[b];
        r := ScanApis(chain, url, verb);
        if r.Some? {
          var i :| 0 <= i < |chain| && ApiHit(chain[i], url, verb, r.value, params.params);
          assert chain[i] in entries;
          return;
        }
        forall a | a in apiList && Slot(h.api, (a.route, a.verb)) == b ensures !ApiMatches(a, url, verb) {
          var k :| 0 <= k < |apiList| && apiList[k] == a;
          assert entries[k] in entries;
        }
        b := b + 1;
      }
    }

    /** findRoute: an API endpoint if one matches in both pattern and method, otherwise a
        page if one matches, otherwise nothing. The parameters left behind are those of the
        route returned: none for an exact match, otherwise what its pattern captured. */
    method FindRoute(url: string, verb: string, ghost pageList: seq<Page>, ghost apiList: seq<Api>, h: Hashing)
      returns (r: RouteMatch)
      requires Built(pageList, apiList, h)
      modifies params
      ensures Built(pageList, apiList, h)
      ensures r.ToApi? <==> exists a :: a in apiList && ApiMatches(a, url, verb)
      ensures r.NoRoute? <==>
        (forall a :: a in apiList ==> !ApiMatches(a, url, verb)) && (forall p :: p in pageList ==> !PageMatches(p, url))
      ensures r.ToApi? ==>
        var exact := Last(ApiEntries(apiList), (url, verb));
        && r.api in apiList && ApiMatches(r.api, url, verb) && (exact.Some? ==> r.api == exact.value)
        && params.params == if exact.Some? then [] else Stored(Match(r.api.route, url).params)
      ensures r.ToPage? ==>
        var exact := Last(PageEntries(pageList), url);
        && r.page in pageList && PageMatches(r.page, url) && (exact.Some? ==> r.page == exact.value)
        && params.params == if exact.Some? then [] else Stored(Match(r.page.route, url).params)
    {
      var api := FindApi(url, verb, pageList, apiList, h);
      if api.Some? {
        return ToApi(api.value);
      }
      var page := FindPage(url, pageList, apiList, h);
      r := if page.Some? then ToPage(page.value) else NoRoute;
    }
  }

  datatype RouteMatch = ToApi(api: Api) | ToPage(page: Page) | NoRoute

  lemma {:induction false} LastPage(pages: seq<Page>, url: string)
    ensures var r := Last(PageEntries(pages), url); r.Some? ==> r.value in pages && r.value.route == url
  {
    if pages != [] {
      assert PageEntries(pages)[..|pages| - 1] == PageEntries(pages[..|pages| - 1]);
      LastPage(pages[..|pages| - 1], url);
    }
  }

  lemma {:induction false} LastApi(apis: seq<Api>, url: string, verb: string)
    ensures var r := Last(ApiEntries(apis), (url, verb));
      r.Some? ==> r.value in apis && r.value.route == url && r.value.verb == verb
  {
    if apis != [] {
      assert ApiEntries(apis)[..|apis| - 1] == ApiEntries(apis[..|apis| - 1]);
      LastApi(apis[..|apis| - 1], url, verb);
    }
  }
}
