/** The discovery pipeline over the document-store API: search the personal
    drive, drain the paginated site listing and search every drive of every
    site, tag each hit with its site, fall back to the recently used files when
    nothing was found, and rank the result. Also the permission check run before
    a link is handed out.

    Every HTTP exchange is an oracle in `Graph`: a response is its status code
    and the `value` list of its JSON body (empty when the key is absent). */
module Graph {
  import opened Wrappers
  import opened Text
  import opened Items
  import Ranking

  /** The site tag given to hits from the user's own drive. */
  const Personal: string := "personal"
  /** `top_k` passed to the ranker by the discovery pipeline. */
  const TopK: int := 5
  const StatusOk: int := 200

  datatype Response<T> = Response(status: int, value: T)

  /** Where a keyword search is issued: the personal drive or one site drive. */
  datatype SearchScope = MyDrive | DriveScope(driveId: string)

  datatype Site = Site(id: string)
  datatype Drive = Drive(id: string)

  /** One page of the site listing: its status, its sites and `@odata.nextLink`. */
  datatype SitePage = SitePage(status: int, sites: seq<Site>, nextLink: Option<string>)

  datatype UserRef = UserRef(email: Option<string>)
  datatype Identity = Identity(user: Option<UserRef>)

  /** One permission entry of an item. */
  datatype Permission = Permission(
    grantedTo: Option<Identity>,
    grantedToIdentitiesV2: seq<Identity>,
    grantedToV2: Option<Identity>,
    roles: seq<string>)

  /** The three permission listings `check_file_access` may consult. */
  datatype PermissionEndpoint =
    | MyDriveItem(itemId: string)
    | UserDriveItem(userEmail: string, itemId: string)
    | SiteDriveItem(siteId: string, itemId: string)

  /** The service, as seen by one discovery call: `sitePages[k]` answers the
      k-th request of the site listing. */
  datatype Graph = Graph(
    search: (SearchScope, string) -> Response<seq<Item>>,
    sitePages: seq<SitePage>,
    siteDrives: string -> Response<seq<Drive>>,
    recent: Response<seq<Item>>,
    permissions: PermissionEndpoint -> Response<seq<Permission>>)

  /* ---------------- Tagging ---------------- */

  /** `b` is `a` except, possibly, for the site tag. */
  predicate SameExceptSite(a: Item, b: Item) {
    && a.id == b.id && a.name == b.name && a.webUrl == b.webUrl
    && a.similarity == b.similarity
    && (if a.parent.Some? then a.parent.value.driveId else None)
       == (if b.parent.Some? then b.parent.value.driveId else None)
  }

  /** `tag_site_id(items, site_id)`: sets `parentReference.siteId` on every item,
      creating `parentReference` where it is missing. */
  function TagSiteId(items: seq<Item>, siteId: string): (r: seq<Item>)
    ensures |r| == |items|
    ensures forall i :: 0 <= i < |r| ==>
      SiteIdOf(r[i]) == Some(siteId) && SameExceptSite(r[i], items[i])
  {
    seq(|items|, i requires 0 <= i < |items| =>
      var p := if items[i].parent.Some? then items[i].parent.value else ParentRef(None, None);
      items[i].(parent := Some(p.(siteId := Some(siteId)))))
  }

  /** Tagging again replaces the earlier tag: only the last tag is observable. */
  lemma RetagOverrides(items: seq<Item>, a: string, b: string)
    ensures TagSiteId(TagSiteId(items, a), b) == TagSiteId(items, b)
  {
    var l := TagSiteId(TagSiteId(items, a), b);
    var r := TagSiteId(items, b);
    forall i | 0 <= i < |items|
      ensures l[i] == r[i]
    {
    }
  }

  /* ---------------- Aggregation ---------------- */

  /** Hits on the personal drive, tagged "personal"; nothing on a failed search. */
  function PersonalResults(g: Graph, query: string): (r: seq<Item>)
    ensures g.search(MyDrive, query).status != StatusOk ==> r == []
    ensures g.search(MyDrive, query).status == StatusOk ==> |r| == |g.search(MyDrive, query).value|
    ensures forall i :: 0 <= i < |r| ==>
      SiteIdOf(r[i]) == Some(Personal) && SameExceptSite(r[i], g.search(MyDrive, query).value[i])
  {
    var res := g.search(MyDrive, query);
    if res.status == StatusOk then TagSiteId(res.value, Personal) else []
  }

  /** Hits on one drive of site `siteId`, tagged with the site; nothing on a failed search. */
  function DriveHits(g: Graph, query: string, siteId: string, d: Drive): seq<Item> {
    var res := g.search(DriveScope(d.id), query);
    if res.status == StatusOk then TagSiteId(res.value, siteId) else []
  }

  function DrivesResults(g: Graph, query: string, siteId: string, drives: seq<Drive>): seq<Item>
    decreases |drives|
  {
    if drives == [] then []
    else DrivesResults(g, query, siteId, drives[..|drives| - 1])
         + DriveHits(g, query, siteId, drives[|drives| - 1])
  }

  /** Hits on every drive of a site; nothing when the drive listing fails. */
  function SiteResults(g: Graph, query: string, site: Site): seq<Item> {
    var res := g.siteDrives(site.id);
    if res.status == StatusOk then DrivesResults(g, query, site.id, res.value) else []
  }

  function SitesResults(g: Graph, query: string, sites: seq<Site>): seq<Item>
    decreases |sites|
  {
    if sites == [] then []
    else SitesResults(g, query, sites[..|sites| - 1]) + SiteResults(g, query, sites[|sites| - 1])
  }

  /** Hits contributed by one page of the listing; a failed page contributes none. */
  function PageResults(g: Graph, query: string, page: SitePage): seq<Item> {
    if page.status == StatusOk then SitesResults(g, query, page.sites) else []
  }

  function ListingResults(g: Graph, query: string, pages: seq<SitePage>): seq<Item>
    decreases |pages|
  {
    if pages == [] then []
    else ListingResults(g, query, pages[..|pages| - 1]) + PageResults(g, query, pages[|pages| - 1])
  }

  /** After this page the listing loop requests another one. */
  predicate Continues(page: SitePage) {
    page.status == StatusOk && Truthy(page.nextLink)
  }

  /** The listing loop stops within the given responses (otherwise the source
      keeps requesting pages forever). */
  predicate ListingEnds(pages: seq<SitePage>) {
    exists i :: 0 <= i < |pages| && !Continues(pages[i])
  }

  function FirstStop(pages: seq<SitePage>, from: nat): (k: nat)
    requires from <= |pages|
    requires exists i :: from <= i < |pages| && !Continues(pages[i])
    ensures from <= k < |pages| && !Continues(pages[k])
    ensures forall j :: from <= j < k ==> Continues(pages[j])
    decreases |pages| - from
  {
    if !Continues(pages[from]) then from else FirstStop(pages, from + 1)
  }

  /** How many listing pages the loop requests: it follows the next links until
      a page fails or has none, and requests that last page too. */
  function PagesRequested(pages: seq<SitePage>): (n: nat)
    requires ListingEnds(pages)
    ensures 1 <= n <= |pages|
    ensures forall j :: 0 <= j < n - 1 ==> Continues(pages[j])
    ensures !Continues(pages[n - 1])
  {
    FirstStop(pages, 0) + 1
  }

  /** Everything the keyword searches found, before any fallback: the
      personal-drive hits first, in the order that search returned them. */
  function Aggregate(g: Graph, query: string): (r: seq<Item>)
    requires ListingEnds(g.sitePages)
    ensures |PersonalResults(g, query)| <= |r|
    ensures r[..|PersonalResults(g, query)|] == PersonalResults(g, query)
  {
    PersonalResults(g, query) + ListingResults(g, query, g.sitePages[..PagesRequested(g.sitePages)])
  }

  /** `fetch_recent_files`: the personal drive's recently used files, tagged
      "personal"; a failure yields no files. */
  function FetchRecentFiles(g: Graph): (r: seq<Item>)
    ensures g.recent.status != StatusOk ==> r == []
    ensures g.recent.status == StatusOk ==> |r| == |g.recent.value|
    ensures forall i :: 0 <= i < |r| ==>
      SiteIdOf(r[i]) == Some(Personal) && SameExceptSite(r[i], g.recent.value[i])
  {
    if g.recent.status == StatusOk then TagSiteId(g.recent.value, Personal) else []
  }

  /** The result of `search_all_files(token, query)` with the embedding model as `sim`. */
  function Discover(g: Graph, query: string, sim: (string, string) -> real): (r: seq<Item>)
    requires ListingEnds(g.sitePages)
    ensures |r| <= TopK
    ensures Aggregate(g, query) != [] ==> |r| == Ranking.PrefixLength(TopK, |Aggregate(g, query)|)
    ensures Aggregate(g, query) != [] ==> r == Ranking.Rank(query, Aggregate(g, query), TopK, sim)
    ensures Aggregate(g, query) == [] ==> r == Ranking.Rank(query, FetchRecentFiles(g), TopK, sim)
    ensures forall x :: x in r ==> SiteIdOf(x).Some?
  {
    var found := Aggregate(g, query);
    var candidates := if found == [] then FetchRecentFiles(g) else found;
    AggregateTagged(g, query);
    RankKeepsTags(query, candidates, sim);
    Ranking.Rank(query, candidates, TopK, sim)
  }

  /** Ranking only reorders, cuts and annotates, so it keeps every site tag. */
  lemma RankKeepsTags(query: string, candidates: seq<Item>, sim: (string, string) -> real)
    requires forall x :: x in candidates ==> SiteIdOf(x).Some?
    ensures forall x :: x in Ranking.Rank(query, candidates, TopK, sim) ==> SiteIdOf(x).Some?
  {
    var r := Ranking.Rank(query, candidates, TopK, sim);
    forall j | 0 <= j < |r|
      ensures SiteIdOf(r[j]).Some?
    {
      var i := Ranking.Selected(query, candidates, TopK, sim)[j];
      assert candidates[i] in candidates;
    }
  }

  /** Lines 23-48 of `search_all_files`: drains the site listing, searching every
      drive of every listed site. Returns the hits appended to `results` and the
      number of listing pages requested. */
  method ListAndSearchSites(g: Graph, query: string, results0: seq<Item>)
    returns (results: seq<Item>, pageRequests: nat)
    requires ListingEnds(g.sitePages)
    ensures pageRequests == PagesRequested(g.sitePages)
    ensures results == results0 + ListingResults(g, query, g.sitePages[..pageRequests])
  {
    var pages := g.sitePages;
    results := results0;
    var i := 0;
    var more := true;
    while more
      invariant 0 <= i <= PagesRequested(pages)
      invariant more <==> i < PagesRequested(pages)
      invariant results == results0 + ListingResults(g, query, pages[..i])
      decreases |pages| - i
    {
      var page := pages[i];
      ListingStep(g, results0, query, pages, i);
      RequestedStep(pages, i);
      i := i + 1;
      if page.status == StatusOk {
        results := results + SitesResults(g, query, page.sites);
        more := Truthy(page.nextLink);
      } else {
        more := false;
      }
    }
    pageRequests := i;
  }

  /** `search_all_files`. Besides the ranked files it reports how many listing
      pages it requested and whether it fell back to the recent files. */
  method SearchAllFiles(g: Graph, query: string, sim: (string, string) -> real)
    returns (ranked: seq<Item>, pageRequests: nat, fellBack: bool)
    requires ListingEnds(g.sitePages)
    ensures pageRequests == PagesRequested(g.sitePages)
    ensures fellBack <==> Aggregate(g, query) == []
    ensures ranked == Ranking.Rank(query, if fellBack then FetchRecentFiles(g) else Aggregate(g, query), TopK, sim)
    ensures ranked == Discover(g, query, sim)
  {
    var results := PersonalResults(g, query);
    results, pageRequests := ListAndSearchSites(g, query, results);
    fellBack := results == [];
    if fellBack {
      results := FetchRecentFiles(g);
    }
    ranked := Ranking.Rank(query, results, TopK, sim);
  }

  /** The listing loop requests page `i + 1` exactly when page `i` continues. */
  lemma RequestedStep(pages: seq<SitePage>, i: nat)
    requires ListingEnds(pages) && i < PagesRequested(pages)
    ensures Continues(pages[i]) <==> i + 1 < PagesRequested(pages)
  {
  }

  /** One more page read by the listing loop appends that page's hits, or
      nothing when the page failed. */
  lemma ListingStep(g: Graph, r0: seq<Item>, query: string, pages: seq<SitePage>, i: nat)
    requires i < |pages|
    ensures pages[i].status == StatusOk ==>
      r0 + ListingResults(g, query, pages[..i + 1])
      == (r0 + ListingResults(g, query, pages[..i])) + SitesResults(g, query, pages[i].sites)
    ensures pages[i].status != StatusOk ==>
      r0 + ListingResults(g, query, pages[..i + 1]) == r0 + ListingResults(g, query, pages[..i])
  {
    assert pages[..i + 1][..i] == pages[..i];
    assert ListingResults(g, query, pages[..i]) + [] == ListingResults(g, query, pages[..i]);
  }

  /* ---------------- Provenance ---------------- */

  lemma {:induction false} DrivesResultsTagged(g: Graph, query: string, siteId: string, drives: seq<Drive>)
    ensures forall x :: x in DrivesResults(g, query, siteId, drives) ==> SiteIdOf(x) == Some(siteId)
    decreases |drives|
  {
    if drives != [] {
      DrivesResultsTagged(g, query, siteId, drives[..|drives| - 1]);
    }
  }

  lemma {:induction false} SitesResultsTagged(g: Graph, query: string, sites: seq<Site>)
    ensures forall x :: x in SitesResults(g, query, sites) ==>
      exists s :: s in sites && SiteIdOf(x) == Some(s.id)
    decreases |sites|
  {
    if sites != [] {
      var init := sites[..|sites| - 1];
      var last := sites[|sites| - 1];
      SitesResultsTagged(g, query, init);
      var res := g.siteDrives(last.id);
      if res.status == StatusOk {
        DrivesResultsTagged(g, query, last.id, res.value);
      }
      forall x | x in SitesResults(g, query, sites)
        ensures exists s :: s in sites && SiteIdOf(x) == Some(s.id)
      {
        if x in SitesResults(g, query, init) {
          var s :| s in init && SiteIdOf(x) == Some(s.id);
          assert s in sites;
        } else {
          assert last in sites;
        }
      }
    }
  }

  /** Site `s` was listed on a page the loop requested and read successfully. */
  predicate ListedOn(pages: seq<SitePage>, s: Site) {
    exists k :: 0 <= k < |pages| && pages[k].status == StatusOk && s in pages[k].sites
  }

  lemma {:induction false} ListingResultsTagged(g: Graph, query: string, pages: seq<SitePage>)
    ensures forall x :: x in ListingResults(g, query, pages) ==>
      exists s :: ListedOn(pages, s) && SiteIdOf(x) == Some(s.id)
    decreases |pages|
  {
    if pages != [] {
      var init := pages[..|pages| - 1];
      var last := pages[|pages| - 1];
      ListingResultsTagged(g, query, init);
      SitesResultsTagged(g, query, last.sites);
      forall x | x in ListingResults(g, query, pages)
        ensures exists s :: ListedOn(pages, s) && SiteIdOf(x) == Some(s.id)
      {
        if x in ListingResults(g, query, init) {
          var s :| ListedOn(init, s) && SiteIdOf(x) == Some(s.id);
          var k :| 0 <= k < |init| && init[k].status == StatusOk && s in init[k].sites;
          assert pages[k] == init[k];
        } else {
          assert last.status == StatusOk;
          var s :| s in last.sites && SiteIdOf(x) == Some(s.id);
          assert pages[|pages| - 1] == last;
          assert ListedOn(pages, s);
        }
      }
    }
  }

  /** Every aggregated hit is tagged either "personal" or with the id of a site
      listed on one of the pages the loop read. */
  lemma AggregateProvenance(g: Graph, query: string)
    requires ListingEnds(g.sitePages)
    ensures forall x :: x in Aggregate(g, query) ==>
      SiteIdOf(x) == Some(Personal) ||
      exists s :: ListedOn(g.sitePages[..PagesRequested(g.sitePages)], s) && SiteIdOf(x) == Some(s.id)
  {
    var pages := g.sitePages[..PagesRequested(g.sitePages)];
    ListingResultsTagged(g, query, pages);
    var res := g.search(MyDrive, query);
    forall x | x in PersonalResults(g, query)
      ensures SiteIdOf(x) == Some(Personal)
    {
    }
  }

  lemma AggregateTagged(g: Graph, query: string)
    requires ListingEnds(g.sitePages)
    ensures forall x :: x in Aggregate(g, query) ==> SiteIdOf(x).Some?
    ensures forall x :: x in FetchRecentFiles(g) ==> SiteIdOf(x) == Some(Personal)
  {
    AggregateProvenance(g, query);
  }

  /* ---------------- Completeness ---------------- */

  lemma {:induction false} DrivesResultsComplete(g: Graph, query: string, siteId: string, drives: seq<Drive>, d: Drive)
    requires d in drives
    ensures forall x :: x in DriveHits(g, query, siteId, d) ==> x in DrivesResults(g, query, siteId, drives)
    decreases |drives|
  {
    if d != drives[|drives| - 1] {
      var init := drives[..|drives| - 1];
      var k :| 0 <= k < |drives| && drives[k] == d;
      assert init[k] == d;
      DrivesResultsComplete(g, query, siteId, init, d);
    }
  }

  lemma {:induction false} SitesResultsComplete(g: Graph, query: string, sites: seq<Site>, s: Site)
    requires s in sites
    ensures forall x :: x in SiteResults(g, query, s) ==> x in SitesResults(g, query, sites)
    decreases |sites|
  {
    if s != sites[|sites| - 1] {
      var init := sites[..|sites| - 1];
      var k :| 0 <= k < |sites| && sites[k] == s;
      assert init[k] == s;
      SitesResultsComplete(g, query, init, s);
    }
  }

  lemma {:induction false} ListingResultsComplete(g: Graph, query: string, pages: seq<SitePage>, k: nat)
    requires k < |pages|
    ensures forall x :: x in PageResults(g, query, pages[k]) ==> x in ListingResults(g, query, pages)
    decreases |pages|
  {
    if k != |pages| - 1 {
      var init := pages[..|pages| - 1];
      assert init[k] == pages[k];
      ListingResultsComplete(g, query, init, k);
    }
  }

  /** Nothing found is dropped: every hit of a successful search on a drive of a
      site whose drive listing succeeded, on a page the loop read, is in the
      aggregate — whatever failed elsewhere. */
  lemma AggregateComplete(g: Graph, query: string, k: nat, s: Site, d: Drive)
    requires ListingEnds(g.sitePages)
    requires k < PagesRequested(g.sitePages)
    requires g.sitePages[k].status == StatusOk && s in g.sitePages[k].sites
    requires g.siteDrives(s.id).status == StatusOk && d in g.siteDrives(s.id).value
    ensures forall x :: x in DriveHits(g, query, s.id, d) ==> x in Aggregate(g, query)
    ensures forall x :: x in PersonalResults(g, query) ==> x in Aggregate(g, query)
  {
    var pages := g.sitePages[..PagesRequested(g.sitePages)];
    DrivesResultsComplete(g, query, s.id, g.siteDrives(s.id).value, d);
    SitesResultsComplete(g, query, g.sitePages[k].sites, s);
    assert pages[k] == g.sitePages[k];
    ListingResultsComplete(g, query, pages, k);
  }

  /* ---------------- Permission check ---------------- */

  /** Python's `a or b or c`: the first truthy value, or the last one if none is. */
  function FirstTruthy(cands: seq<Option<string>>): (r: Option<string>)
    requires |cands| > 0
    ensures r in cands
    ensures Truthy(r) ==>
      (exists i :: 0 <= i < |cands| && cands[i] == r && forall j :: 0 <= j < i ==> !Truthy(cands[j]))
    ensures !Truthy(r) ==> r == cands[|cands| - 1] && forall j :: 0 <= j < |cands| ==> !Truthy(cands[j])
  {
    if |cands| == 1 || Truthy(cands[0]) then cands[0]
    else
      var r := FirstTruthy(cands[1..]);
      assert forall j :: 1 <= j < |cands| ==> cands[j] == cands[1..][j - 1];
      r
  }

  function IdentityEmail(i: Option<Identity>): Option<string> {
    if i.Some? && i.value.user.Some? then i.value.user.value.email else None
  }

  /** The grantee email of a permission: `grantedTo.user.email`, else that of the
      first `grantedToIdentitiesV2` entry, else `grantedToV2.user.email`. */
  function ResolveEmail(p: Permission): (e: Option<string>)
    ensures Truthy(IdentityEmail(p.grantedTo)) ==> e == IdentityEmail(p.grantedTo)
    ensures !Truthy(IdentityEmail(p.grantedTo)) && Truthy(FirstIdentityEmail(p)) ==>
      e == FirstIdentityEmail(p)
    ensures !Truthy(IdentityEmail(p.grantedTo)) && !Truthy(FirstIdentityEmail(p)) ==>
      e == IdentityEmail(p.grantedToV2)
  {
    var cands := [IdentityEmail(p.grantedTo), FirstIdentityEmail(p), IdentityEmail(p.grantedToV2)];
    assert cands[1..] == [FirstIdentityEmail(p), IdentityEmail(p.grantedToV2)];
    assert cands[1..][1..] == [IdentityEmail(p.grantedToV2)];
    assert !Truthy(cands[0]) ==> FirstTruthy(cands) == FirstTruthy(cands[1..]);
    assert Truthy(cands[1]) ==> FirstTruthy(cands[1..]) == cands[1];
    FirstTruthy(cands)
  }

  /** The email of the first `grantedToIdentitiesV2` entry, if there is one. */
  function FirstIdentityEmail(p: Permission): Option<string> {
    if |p.grantedToIdentitiesV2| > 0 then IdentityEmail(Some(p.grantedToIdentitiesV2[0])) else None
  }

  predicate ReadableRole(role: string) {
    Lower(role) in ["read", "view", "write"]
  }

  /** The permission lets `userEmail` open the item: its grantee is unnamed or is
      the user (ignoring case), and one of its roles is read, view or write. */
  function Grants(p: Permission, userEmail: string): (b: bool)
    ensures b ==> exists role :: role in p.roles && ReadableRole(role)
    ensures b && ResolveEmail(p).Some? ==> Lower(ResolveEmail(p).value) == Lower(userEmail)
    ensures ResolveEmail(p).None? && (exists role :: role in p.roles && ReadableRole(role)) ==> b
    ensures (&& ResolveEmail(p).Some? && EqualsIgnoreCase(ResolveEmail(p).value, userEmail)
             && exists role :: role in p.roles && ReadableRole(role)) ==> b
  {
    var e := ResolveEmail(p);
    (e.None? || EqualsIgnoreCase(e.value, userEmail)) && exists role :: role in p.roles && ReadableRole(role)
  }

  /** Whether a permission grants depends on the user's email only up to case. */
  lemma GrantsIgnoresCase(p: Permission, a: string, b: string)
    requires Lower(a) == Lower(b)
    ensures Grants(p, a) <==> Grants(p, b)
  {
  }

  /** A permission with no named grantee and a read role, in any capitalisation,
      lets everyone open the item. */
  lemma UnnamedReadGrantsAll(userEmail: string)
    ensures Grants(Permission(None, [], None, ["Read"]), userEmail)
  {
    assert Lower("Read") == "read";
    assert "Read" in ["Read"];
  }

  /** The listings consulted, in order; the site-scoped one only for a real site. */
  function PermissionEndpoints(itemId: string, userEmail: string, siteId: Option<string>): (eps: seq<PermissionEndpoint>)
    ensures |eps| == if Truthy(siteId) && siteId.value != Personal then 3 else 2
    ensures eps[0] == MyDriveItem(itemId) && eps[1] == UserDriveItem(userEmail, itemId)
    ensures (exists k :: 0 <= k < |eps| && eps[k].SiteDriveItem?) <==> Truthy(siteId) && siteId.value != Personal
    ensures forall k :: 0 <= k < |eps| && eps[k].SiteDriveItem? ==> eps[k] == SiteDriveItem(siteId.value, itemId)
  {
    var eps := [MyDriveItem(itemId), UserDriveItem(userEmail, itemId)]
      + if Truthy(siteId) && siteId.value != Personal then [SiteDriveItem(siteId.value, itemId)] else [];
    assert |eps| == 3 ==> eps[2].SiteDriveItem?;
    eps
  }

  predicate EndpointGrants(g: Graph, ep: PermissionEndpoint, userEmail: string) {
    var res := g.permissions(ep);
    res.status == StatusOk && exists p :: p in res.value && Grants(p, userEmail)
  }

  /** Access is granted when some consulted listing that answered 200 holds a
      granting permission. */
  function HasAccess(g: Graph, itemId: string, userEmail: string, siteId: Option<string>): (b: bool)
    ensures b <==>
      || EndpointGrants(g, MyDriveItem(itemId), userEmail)
      || EndpointGrants(g, UserDriveItem(userEmail, itemId), userEmail)
      || (Truthy(siteId) && siteId.value != Personal
          && EndpointGrants(g, SiteDriveItem(siteId.value, itemId), userEmail))
  {
    var eps := PermissionEndpoints(itemId, userEmail, siteId);
    exists k :: 0 <= k < |eps| && EndpointGrants(g, eps[k], userEmail)
  }

  /** `check_file_access`: walks the listings in order and stops at the first
      granting permission. Also reports how many listings it requested. */
  method CheckFileAccess(g: Graph, itemId: string, userEmail: string, siteId: Option<string>)
    returns (granted: bool, requests: nat)
    ensures granted <==> HasAccess(g, itemId, userEmail, siteId)
    ensures var eps := PermissionEndpoints(itemId, userEmail, siteId);
      && 1 <= requests <= |eps|
      && (forall k :: 0 <= k < requests - 1 ==> !EndpointGrants(g, eps[k], userEmail))
      && (granted ==> EndpointGrants(g, eps[requests - 1], userEmail))
      && (!granted ==> requests == |eps|)
  {
    var eps := PermissionEndpoints(itemId, userEmail, siteId);
    requests := 0;
    while requests < |eps|
      invariant 0 <= requests <= |eps|
      invariant forall k :: 0 <= k < requests ==> !EndpointGrants(g, eps[k], userEmail)
    {
      var res := g.permissions(eps[requests]);
      requests := requests + 1;
      if res.status == StatusOk {
        var found := AnyGrants(res.value, userEmail);
        if found {
          return true, requests;
        }
      }
    }
    return false, requests;
  }

  /** The scan of one permission listing for an entry that grants access. */
  method AnyGrants(perms: seq<Permission>, userEmail: string) returns (found: bool)
    ensures found <==> exists p :: p in perms && Grants(p, userEmail)
  {
    var j := 0;
    while j < |perms|
      invariant 0 <= j <= |perms|
      invariant forall m :: 0 <= m < j ==> !Grants(perms[m], userEmail)
    {
      if Grants(perms[j], userEmail) {
        return true;
      }
      j := j + 1;
    }
    return false;
  }
}
