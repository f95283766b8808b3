// Pages from the cache and the redirect branch of src/modules/renderPage.ts.
module Redirects {
  import opened Urls
  import opened Protocol
  import opened PageCache

  /** A visit about to render the page that the cache held for its target after some edits. */
  ghost predicate RendersCachedPage(rd: Reading, edits: seq<Edit>, s: World, i: nat)
    requires s.WellFormed()
  {
    && i < |s.visits|
    && var v := s.visits[i];
    && v.pc.NeedPage? && !v.Done() && v.load.Loaded?
    && var cached := Found(rd, AfterEdits(rd, edits), v.to.url);
    && cached.Some? && v.load.page.url == cached.value.url
    && rd.norm(v.to.url) == v.to.url
    && s.session.Address().url == v.to.url
  }

  /**
   * With the address bar at the visit's target, a cached page is not mistaken for a redirect, and
   * rendering it leaves the history and the location alone, exactly if the resolver is idempotent at
   * the target.
   */
  lemma CachedPageIsNoRedirectIff(cfg: Settings, rd: Reading, edits: seq<Edit>, s: World, i: nat)
    requires cfg.resolver == rd.resolver && s.WellFormed() && RendersCachedPage(rd, edits, s, i)
    ensures var url := s.visits[i].to.url; var r := EnterPage(cfg, s, i);
      && (r.session == s.session <==> ResolveUrl(rd.resolver, Resolve(rd, url)) == Resolve(rd, url))
      && (r.session == s.session ==> r.location == s.location && r.visits[i].to == s.visits[i].to)
  {
    EditsKeyed(rd, edits);
    var r := EnterPage(cfg, s, i);
    if r.session == s.session {
      assert r.session.Address() == s.session.Address();
    }
  }

  /** So it is for every cached page when resolved urls are normal and the resolver is idempotent. */
  lemma CachedPagesAreNoRedirects(cfg: Settings, rd: Reading, edits: seq<Edit>, s: World, i: nat)
    requires cfg.resolver == rd.resolver && s.WellFormed() && RendersCachedPage(rd, edits, s, i)
    requires Idempotent(rd) && forall u :: rd.norm(Resolve(rd, u)) == Resolve(rd, u)
    ensures var r := EnterPage(cfg, s, i); r.session == s.session && r.location == s.location
  {
    var url := s.visits[i].to.url;
    assert Resolve(rd, Resolve(rd, url)) == Resolve(rd, url);
    CachedPageIsNoRedirectIff(cfg, rd, edits, s, i);
  }
}
