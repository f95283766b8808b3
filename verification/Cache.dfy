// src/modules/Cache.ts and the caching part of src/modules/fetchPage.ts and src/modules/navigate.ts.
module PageCache {
  import opened Wrappers
  import opened Urls

  /** A page record: `html` can be missing when `update` created it; `data` is custom data. */
  datatype Page = Page(url: string, html: Option<string>, data: map<string, string>)

  datatype Payload = Payload(html: Option<string>, data: map<string, string>)

  /** How urls are read: `norm` is `Location.fromUrl(_).url`, `resolver` the user's option. */
  datatype Reading = Reading(norm: string -> string, resolver: Resolver)

  /** `Cache.resolve` */
  function Resolve(rd: Reading, url: string): string {
    ResolveUrl(rd.resolver, rd.norm(url))
  }

  /** Two urls denote the same cache record. */
  predicate Equivalent(rd: Reading, a: string, b: string) {
    Resolve(rd, a) == Resolve(rd, b)
  }

  /** Hash, origin and spelling do not matter, and the user's resolver may identify more. */
  lemma EquivalentIff(rd: Reading, a: string, b: string)
    ensures Equivalent(rd, a, b) <==> SameResolvedUrl(rd.resolver, rd.norm(a), rd.norm(b))
    ensures rd.norm(a) == rd.norm(b) ==> Equivalent(rd, a, b)
  {}

  type Pages = map<string, Page>

  /** Every record knows its key, and every key is a resolved url. */
  ghost predicate Keyed(rd: Reading, pages: Pages) {
    forall key | key in pages :: pages[key].url == key && exists u :: Resolve(rd, u) == key
  }

  /** Every key resolves to itself: so it is when the resolver is idempotent. */
  predicate Settled(rd: Reading, pages: Pages) {
    forall key | key in pages :: Resolve(rd, key) == key
  }

  ghost predicate Idempotent(rd: Reading) {
    forall u :: Resolve(rd, Resolve(rd, u)) == Resolve(rd, u)
  }

  lemma IdempotentSettles(rd: Reading, pages: Pages)
    requires Idempotent(rd) && Keyed(rd, pages)
    ensures Settled(rd, pages)
  {}

  // ---- Records ----

  function Found(rd: Reading, pages: Pages, url: string): Option<Page> {
    var key := Resolve(rd, url);
    if key in pages then Some(pages[key]) else None
  }

  function Stored(rd: Reading, pages: Pages, url: string, page: Page): Pages {
    pages[Resolve(rd, url) := page.(url := Resolve(rd, url))]
  }

  /** The old record spread under the payload. */
  function Merged(known: Option<Page>, payload: Payload, key: string): Page {
    var base := if known.Some? then known.value else Page(key, None, map[]);
    Page(key, if payload.html.Some? then payload.html else base.html, base.data + payload.data)
  }

  /** `update` looks the record up under the resolved url, which `get` resolves once more. */
  function Updated(rd: Reading, pages: Pages, url: string, payload: Payload): Pages {
    var key := Resolve(rd, url);
    pages[key := Merged(Found(rd, pages, key), payload, key)]
  }

  function Deleted(rd: Reading, pages: Pages, url: string): Pages {
    pages - {Resolve(rd, url)}
  }

  /** The cache is a map on classes of equivalent urls. */
  lemma CacheIsMapOnClasses(rd: Reading, pages: Pages, u: string, v: string, page: Page, payload: Payload)
    ensures Found(rd, Stored(rd, pages, u, page), v)
         == if Equivalent(rd, u, v) then Some(page.(url := Resolve(rd, u))) else Found(rd, pages, v)
    ensures Found(rd, Deleted(rd, pages, u), v)
         == if Equivalent(rd, u, v) then None else Found(rd, pages, v)
    ensures Resolve(rd, Resolve(rd, u)) == Resolve(rd, u) ==>
      Found(rd, Updated(rd, pages, u, payload), v)
        == if Equivalent(rd, u, v) then Some(Merged(Found(rd, pages, u), payload, Resolve(rd, u)))
           else Found(rd, pages, v)
  {}

  /** Where the url is settled, an update puts the payload over the old record, key by key. */
  lemma PayloadWins(rd: Reading, pages: Pages, url: string, payload: Payload, k: string)
    requires Resolve(rd, Resolve(rd, url)) == Resolve(rd, url)
    ensures var was, now := Found(rd, pages, url), Found(rd, Updated(rd, pages, url, payload), url);
      && now.Some?
      && now.value.html == (if payload.html.Some? then payload.html
                            else if was.Some? then was.value.html else None)
      && (k in payload.data ==> k in now.value.data && now.value.data[k] == payload.data[k])
      && (k !in payload.data ==>
            (k in now.value.data <==> was.Some? && k in was.value.data)
            && (k in now.value.data ==> now.value.data[k] == was.value.data[k]))
  {}

  /** `update` builds on the record it replaces, in every cache, exactly for a url that is settled. */
  lemma UpdateBuildsOnRecordIff(rd: Reading, url: string)
    ensures (forall pages, payload ::
               Found(rd, Updated(rd, pages, url, payload), url)
                 == Some(Merged(Found(rd, pages, url), payload, Resolve(rd, url))))
            <==> Resolve(rd, Resolve(rd, url)) == Resolve(rd, url)
  {
    var key := Resolve(rd, url);
    if Resolve(rd, key) != key {
      var pages := map[key := Page(key, Some("x"), map[])];
      var payload := Payload(None, map[]);
      assert Found(rd, Updated(rd, pages, url, payload), url) == Some(Merged(None, payload, key));
      assert Merged(Found(rd, pages, url), payload, key).html == Some("x");
    }
  }

  // ---- prune ----

  type Predicate = (string, Page) -> bool

  /** The loop of `prune` over a snapshot of the insertion order: deleted records are passed over. */
  function PruneOver(rd: Reading, pages: Pages, order: seq<string>, p: Predicate): Pages {
    if order == [] then pages
    else
      var key := order[0];
      var next := if key in pages && p(key, pages[key]) then Deleted(rd, pages, key) else pages;
      PruneOver(rd, next, order[1..], p)
  }

  /** What `prune` promises: only records that do not satisfy the predicate are left. */
  function Kept(pages: Pages, p: Predicate): Pages {
    map key | key in pages && !p(key, pages[key]) :: pages[key]
  }

  /** `order` lists the keys, each of them once. */
  ghost predicate Lists(order: seq<string>, pages: Pages) {
    && (forall key | key in pages :: key in order)
    && (forall i, j | 0 <= i < j < |order| :: order[i] != order[j])
  }

  lemma {:induction false} PruneKeeps(rd: Reading, pages: Pages, order: seq<string>, p: Predicate)
    requires Settled(rd, pages)
    ensures var r := PruneOver(rd, pages, order, p);
      && (forall key :: key in r <==> key in pages && (key !in order || !p(key, pages[key])))
      && (forall key | key in r :: r[key] == pages[key])
    decreases |order|
  {
    if order != [] {
      var key := order[0];
      var next := if key in pages && p(key, pages[key]) then Deleted(rd, pages, key) else pages;
      PruneKeeps(rd, next, order[1..], p);
      assert order == [key] + order[1..];
    }
  }

  lemma {:induction false} PruneShrinks(rd: Reading, pages: Pages, order: seq<string>, p: Predicate)
    ensures var r := PruneOver(rd, pages, order, p);
      forall key | key in r :: key in pages && r[key] == pages[key]
    decreases |order|
  {
    if order != [] {
      var key := order[0];
      var next := if key in pages && p(key, pages[key]) then Deleted(rd, pages, key) else pages;
      PruneShrinks(rd, next, order[1..], p);
    }
  }

  /** A record whose key resolves to another url survives any `prune` that is after it alone. */
  lemma {:induction false} PruneMisses(rd: Reading, pages: Pages, order: seq<string>, lost: string)
    requires lost in pages && Resolve(rd, lost) != lost
    ensures lost in PruneOver(rd, pages, order, (key, _) => key == lost)
    decreases |order|
  {
    if order != [] {
      var p: Predicate := (key, _) => key == lost;
      var key := order[0];
      var next := if key in pages && p(key, pages[key]) then Deleted(rd, pages, key) else pages;
      PruneMisses(rd, next, order[1..], lost);
    }
  }

  /** `prune` removes exactly the records it should, for every predicate, iff every key is settled. */
  lemma PruneIsExactIff(rd: Reading, pages: Pages, order: seq<string>)
    requires Lists(order, pages)
    ensures (forall p :: PruneOver(rd, pages, order, p) == Kept(pages, p)) <==> Settled(rd, pages)
  {
    if Settled(rd, pages) {
      forall p ensures PruneOver(rd, pages, order, p) == Kept(pages, p) {
        PruneKeeps(rd, pages, order, p);
      }
    } else {
      var lost :| lost in pages && Resolve(rd, lost) != lost;
      var p: Predicate := (key, _) => key == lost;
      PruneMisses(rd, pages, order, lost);
      assert lost !in Kept(pages, p);
    }
  }

  // ---- Runs of the cache: a map on classes of urls ----

  datatype Edit =
    | SetTo(url: string, page: Page)
    | UpdateBy(url: string, payload: Payload)
    | Drop(url: string)
    | Empty
    | PruneBy(order: seq<string>, p: Predicate)

  function Edited(rd: Reading, pages: Pages, edit: Edit): Pages {
    match edit
    case SetTo(url, page) => Stored(rd, pages, url, page)
    case UpdateBy(url, payload) => Updated(rd, pages, url, payload)
    case Drop(url) => Deleted(rd, pages, url)
    case Empty => map[]
    case PruneBy(order, p) => PruneOver(rd, pages, order, p)
  }

  function AfterEdits(rd: Reading, edits: seq<Edit>): Pages {
    if edits == [] then map[]
    else Edited(rd, AfterEdits(rd, edits[..|edits| - 1]), edits[|edits| - 1])
  }

  /** Every `prune` goes through the keys there are. */
  ghost predicate Orderly(rd: Reading, edits: seq<Edit>) {
    forall k | 0 <= k < |edits| :: edits[k].PruneBy? ==> Lists(edits[k].order, AfterEdits(rd, edits[..k]))
  }

  /** What the edits have left for the class of `v`, by looking at that class alone. */
  function Expected(rd: Reading, edits: seq<Edit>, v: string): Option<Page> {
    if edits == [] then None
    else
      var before := Expected(rd, edits[..|edits| - 1], v);
      match edits[|edits| - 1]
      case SetTo(u, page) => if Equivalent(rd, u, v) then Some(page.(url := Resolve(rd, v))) else before
      case UpdateBy(u, payload) =>
        if Equivalent(rd, u, v) then Some(Merged(before, payload, Resolve(rd, v))) else before
      case Drop(u) => if Equivalent(rd, u, v) then None else before
      case Empty => None
      case PruneBy(_, p) => if before.Some? && p(Resolve(rd, v), before.value) then None else before
  }

  lemma EditedKeyed(rd: Reading, pages: Pages, edit: Edit)
    requires Keyed(rd, pages)
    ensures Keyed(rd, Edited(rd, pages, edit))
  {
    var r := Edited(rd, pages, edit);
    if edit.PruneBy? {
      PruneShrinks(rd, pages, edit.order, edit.p);
    }
    forall key | key in r ensures r[key].url == key && exists u :: Resolve(rd, u) == key {
      if key in pages {
        var u :| Resolve(rd, u) == key;
      } else {
        assert Resolve(rd, edit.url) == key;
      }
    }
  }

  /** After any edits every record carries the url it is kept under, whatever the resolver. */
  lemma {:induction false} EditsKeyed(rd: Reading, edits: seq<Edit>)
    ensures Keyed(rd, AfterEdits(rd, edits))
  {
    if edits != [] {
      EditsKeyed(rd, edits[..|edits| - 1]);
      EditedKeyed(rd, AfterEdits(rd, edits[..|edits| - 1]), edits[|edits| - 1]);
    }
  }

  lemma OrderlyBefore(rd: Reading, edits: seq<Edit>)
    requires edits != [] && Orderly(rd, edits)
    ensures Orderly(rd, edits[..|edits| - 1])
  {
    var init := edits[..|edits| - 1];
    forall k | 0 <= k < |init| && init[k].PruneBy? ensures Lists(init[k].order, AfterEdits(rd, init[..k])) {
      assert init[..k] == edits[..k] && init[k] == edits[k];
    }
  }

  /**
   * After any edits, with an idempotent resolver, `get` answers for a url what happened to its class,
   * and every record carries the url it is kept under.
   */
  lemma {:induction false} CacheRefinesClasses(rd: Reading, edits: seq<Edit>, v: string)
    requires Idempotent(rd) && Orderly(rd, edits)
    ensures Keyed(rd, AfterEdits(rd, edits))
    ensures Found(rd, AfterEdits(rd, edits), v) == Expected(rd, edits, v)
  {
    if edits != [] {
      var n := |edits| - 1;
      var pages, edit := AfterEdits(rd, edits[..n]), edits[n];
      OrderlyBefore(rd, edits);
      CacheRefinesClasses(rd, edits[..n], v);
      EditsKeyed(rd, edits);
      if edit.PruneBy? {
        IdempotentSettles(rd, pages);
        PruneKeeps(rd, pages, edit.order, edit.p);
      }
    }
  }

  // ---- The cache object ----

  class Cache {
    const rd: Reading
    var pages: Pages
    var order: seq<string>   // insertion order of the keys

    ghost predicate Valid()
      reads this
    {
      Keyed(rd, pages) && Lists(order, pages) && forall key | key in order :: key in pages
    }

    constructor (rd: Reading)
      ensures Valid() && this.rd == rd && pages == map[]
    {
      this.rd := rd;
      pages := map[];
      order := [];
    }

    function Has(url: string): (r: bool)
      reads this
      ensures r == Found(rd, pages, url).Some?
    {
      Resolve(rd, url) in pages
    }

    function Get(url: string): (r: Option<Page>)
      reads this
      ensures r == Found(rd, pages, url)
      ensures r.Some? && Valid() ==> r.value.url == Resolve(rd, url)
    {
      var key := Resolve(rd, url);
      if key in pages then Some(pages[key]) else None
    }

    /** A later page for an equivalent url takes the place of an earlier one. */
    method Set(url: string, page: Page)
      requires Valid()
      modifies this
      ensures Valid() && pages == Stored(rd, old(pages), url, page)
    {
      var key := Resolve(rd, url);
      Append(key);
      pages := pages[key := page.(url := key)];
    }

    /** `Map.set` leaves a known key in its place. */
    method Append(key: string)
      modifies this`order
      ensures order == if key in old(pages) then old(order) else old(order) + [key]
    {
      if key !in pages {
        order := order + [key];
      }
    }

    /** A missing record is created, html or not. */
    method Update(url: string, payload: Payload)
      requires Valid()
      modifies this
      ensures Valid() && pages == Updated(rd, old(pages), url, payload)
    {
      var key := Resolve(rd, url);
      var base := Get(key);
      Append(key);
      var html := if payload.html.Some? then payload.html else if base.Some? then base.value.html else None;
      pages := pages[key := Page(key, html, (if base.Some? then base.value.data else map[]) + payload.data)];
    }

    method Delete(url: string)
      requires Valid()
      modifies this
      ensures Valid() && pages == Deleted(rd, old(pages), url)
    {
      var key := Resolve(rd, url);
      order := Remove(order, key);
      pages := pages - {key};
    }

    method Clear()
      modifies this
      ensures Valid() && pages == map[]
    {
      pages := map[];
      order := [];
    }

    /** `forEach` over the map, deleting on the way. */
    method Prune(p: Predicate)
      requires Valid()
      modifies this
      ensures Valid()
      ensures pages == PruneOver(rd, old(pages), old(order), p)
      ensures Settled(rd, old(pages)) ==> pages == Kept(old(pages), p)
    {
      var snapshot := order;
      for k := 0 to |snapshot|
        invariant Valid()
        invariant PruneOver(rd, pages, snapshot[k..], p) == PruneOver(rd, old(pages), snapshot, p)
      {
        var key := snapshot[k];
        assert snapshot[k..][0] == key && snapshot[k..][1..] == snapshot[k + 1..];
        if key in pages && p(key, pages[key]) {
          Delete(key);
        }
      }
      assert snapshot[|snapshot|..] == [];
      if Settled(rd, old(pages)) {
        PruneKeeps(rd, old(pages), old(order), p);
      }
    }
  }

  function Remove(order: seq<string>, key: string): (r: seq<string>)
    ensures forall k :: k in r <==> k in order && k != key
    ensures (forall i, j | 0 <= i < j < |order| :: order[i] != order[j]) ==>
              forall i, j | 0 <= i < j < |r| :: r[i] != r[j]
  {
    if order == [] then []
    else
      var rest := Remove(order[1..], key);
      assert order == [order[0]] + order[1..];
      if order[0] == key then rest
      else
        assert (forall i, j | 0 <= i < j < |order| :: order[i] != order[j]) ==> order[0] !in order[1..];
        [order[0]] + rest
  }

  // ---- Loading pages ----

  /** What comes back from the network; `url` is where the answer came from after redirects, normalised. */
  datatype Reply =
    | Answer(status: int, url: string, html: string)
    | NoReply(timedOut: bool, aborted: bool)

  /** How 'page:load' settles; only an aborted load is told apart from other errors. */
  datatype Fetched = Fetched(html: Option<string>) | Rejected(aborted: bool)

  datatype Server = Server(get: string -> Reply, post: string -> Reply)

  datatype Request = Request(url: string, read: bool, write: bool, isGet: bool)

  datatype Outcome = Outcome(pages: Pages, result: Fetched)

  /** A request that timed out does not count as aborted, although the timer aborts it. */
  function Settle(reply: Reply): Fetched {
    match reply
    case NoReply(timedOut, aborted) => Rejected(aborted && !timedOut)
    case Answer(status, _, html) => if status == 500 || html == "" then Rejected(false) else Fetched(Some(html))
  }

  function Ask(server: Server, url: string, isGet: bool): Reply {
    if isGet then server.get(url) else server.post(url)
  }

  /** `fetchPage`: a good answer is written for a safe method, if it was not redirected. */
  function Fetch(rd: Reading, server: Server, pages: Pages, rq: Request): Outcome {
    var url := rd.norm(rq.url);
    var reply := Ask(server, url, rq.isGet);
    var result := Settle(reply);
    if result.Fetched? && rq.write && rq.isGet && url == reply.url
    then Outcome(Stored(rd, pages, reply.url, Page(reply.url, Some(reply.html), map[])), result)
    else Outcome(pages, result)
  }

  /** The default handler of 'page:load'. */
  function LoadPage(rd: Reading, server: Server, pages: Pages, rq: Request): Outcome {
    if rq.read && Found(rd, pages, rq.url).Some?
    then Outcome(pages, Fetched(Found(rd, pages, rq.url).value.html))
    else Fetch(rd, server, pages, rq)
  }

  method FetchPage(cache: Cache, server: Server, rq: Request) returns (result: Fetched)
    requires cache.Valid()
    modifies cache
    ensures cache.Valid()
    ensures Outcome(cache.pages, result) == Fetch(cache.rd, server, old(cache.pages), rq)
    ensures var url := cache.rd.norm(rq.url);
      match if rq.isGet then server.get(url) else server.post(url)
      case NoReply(timedOut, aborted) =>
        result == Rejected(if timedOut then false else aborted) && cache.pages == old(cache.pages)
      case Answer(status, from, html) =>
        if status == 500 || html == "" then result == Rejected(false) && cache.pages == old(cache.pages)
        else
          && result == Fetched(Some(html))
          && (!rq.write || !rq.isGet || from != url ==> cache.pages == old(cache.pages))
          && (rq.write && rq.isGet && from == url ==>
                && cache.Has(url) && cache.Get(url).value.html == Some(html)
                && forall v | !Equivalent(cache.rd, url, v) :: cache.Get(v) == Found(cache.rd, old(cache.pages), v))
  {
    var url := cache.rd.norm(rq.url);
    var reply := Ask(server, url, rq.isGet);
    if reply.NoReply? {
      if reply.timedOut {
        return Rejected(false);
      }
      return Rejected(reply.aborted);
    }
    if reply.status == 500 {
      return Rejected(false);
    }
    if reply.html == "" {
      return Rejected(false);
    }
    var page := Page(reply.url, Some(reply.html), map[]);
    if rq.write && rq.isGet && url == page.url {
      cache.Set(page.url, page);
    }
    result := Fetched(page.html);
  }

  /** Read from the cache, or fetch. */
  method HandlePageLoad(cache: Cache, server: Server, rq: Request) returns (result: Fetched)
    requires cache.Valid()
    modifies cache
    ensures cache.Valid()
    ensures Outcome(cache.pages, result) == LoadPage(cache.rd, server, old(cache.pages), rq)
    ensures rq.read && old(cache.Has(rq.url)) ==>
      result == Fetched(old(cache.Get(rq.url)).value.html) && cache.pages == old(cache.pages)
    ensures !rq.read || !old(cache.Has(rq.url)) ==>
      Outcome(cache.pages, result) == Fetch(cache.rd, server, old(cache.pages), rq)
  {
    var cachedPage := None;
    if rq.read {
      cachedPage := cache.Get(rq.url);
    }
    if cachedPage.Some? {
      result := Fetched(cachedPage.value.html);
    } else {
      result := FetchPage(cache, server, rq);
    }
  }

  datatype Operation =
    | Load(rq: Request)
    | Delete(url: string)
    | Clear
    | Prune(order: seq<string>, p: Predicate)

  function Operated(rd: Reading, server: Server, pages: Pages, op: Operation): Pages {
    match op
    case Load(rq) => LoadPage(rd, server, pages, rq).pages
    case Delete(url) => Deleted(rd, pages, url)
    case Clear => map[]
    case Prune(order, p) => PruneOver(rd, pages, order, p)
  }

  function AfterOperations(rd: Reading, server: Server, pages: Pages, ops: seq<Operation>): Pages
    decreases |ops|
  {
    if ops == [] then pages
    else AfterOperations(rd, server, Operated(rd, server, pages, ops[0]), ops[1..])
  }

  /** A GET of `u` succeeds without a redirect. */
  ghost predicate Storable(rd: Reading, server: Server, u: string) {
    var reply := server.get(rd.norm(u));
    reply.Answer? && reply.status != 500 && reply.html != "" && reply.url == rd.norm(u)
  }

  /** The record under `key` was fetched from `u` without a redirect. */
  ghost predicate FetchedFrom(rd: Reading, server: Server, key: string, page: Page, u: string) {
    Resolve(rd, u) == key && Storable(rd, server, u) && page.html == Some(server.get(rd.norm(u)).html)
  }

  ghost predicate Faithful(rd: Reading, server: Server, pages: Pages) {
    forall key | key in pages :: exists u :: FetchedFrom(rd, server, key, pages[key], u)
  }

  ghost predicate Normal(rd: Reading) {
    forall u :: rd.norm(rd.norm(u)) == rd.norm(u)
  }

  lemma OperatedFaithful(rd: Reading, server: Server, pages: Pages, op: Operation)
    requires Normal(rd) && Faithful(rd, server, pages)
    ensures Faithful(rd, server, Operated(rd, server, pages, op))
  {
    var r := Operated(rd, server, pages, op);
    if op.Prune? {
      PruneShrinks(rd, pages, op.order, op.p);
    }
    forall key | key in r ensures exists u :: FetchedFrom(rd, server, key, r[key], u) {
      if key in pages && r[key] == pages[key] {
        var u :| FetchedFrom(rd, server, key, pages[key], u);
      } else {
        assert FetchedFrom(rd, server, key, r[key], op.rq.url);
      }
    }
  }

  /** How each reply ends a request that is not answered from the cache, and what is left in the cache. */
  lemma ReplyDecides(rd: Reading, server: Server, pages: Pages, rq: Request)
    requires !rq.read || Found(rd, pages, rq.url).None?
    ensures var url := rd.norm(rq.url); var r := LoadPage(rd, server, pages, rq);
      match if rq.isGet then server.get(url) else server.post(url)
      case NoReply(timedOut, aborted) => r == Outcome(pages, Rejected(!timedOut && aborted))
      case Answer(status, from, html) =>
        if status == 500 || html == "" then r == Outcome(pages, Rejected(false))
        else
          && r.result == Fetched(Some(html))
          && (r.pages == pages || (rq.write && rq.isGet && from == url))
          && (rq.write && rq.isGet && from == url ==>
                Found(rd, r.pages, url).Some? && Found(rd, r.pages, url).value.html == Some(html))
  {}

  /** What was loaded and may be kept is served from the cache from then on, whatever the server says. */
  lemma StoredPageIsServed(rd: Reading, server: Server, later: Server, pages: Pages, rq: Request)
    requires Normal(rd) && Storable(rd, server, rq.url)
    requires rq.write && rq.isGet && (rq.read ==> Found(rd, pages, rq.url).None?)
    ensures var r := LoadPage(rd, server, pages, rq);
      forall again: Request | again.read && Equivalent(rd, again.url, rq.url) ::
        LoadPage(rd, later, r.pages, again) == Outcome(r.pages, Fetched(Some(server.get(rd.norm(rq.url)).html)))
  {}

  /**
   * Redirected answers are never stored, nor are errors and empty answers, nor is anything but what the
   * server sent.
   */
  lemma {:induction false} RecordsAreFaithful(rd: Reading, server: Server, pages: Pages, ops: seq<Operation>)
    requires Normal(rd) && Faithful(rd, server, pages)
    ensures Faithful(rd, server, AfterOperations(rd, server, pages, ops))
    decreases |ops|
  {
    if ops != [] {
      OperatedFaithful(rd, server, pages, ops[0]);
      RecordsAreFaithful(rd, server, Operated(rd, server, pages, ops[0]), ops[1..]);
    }
  }

  /** A url whose page may be stored is answered like every equivalent url. */
  ghost predicate Uniform(rd: Reading, server: Server) {
    forall u, v :: Equivalent(rd, u, v) && Storable(rd, server, u) ==>
      Settle(server.get(rd.norm(u))) == Settle(server.get(rd.norm(v)))
  }

  /** After `ops`, loading with the cache gives what loading without it gives. */
  ghost predicate TransparentAfter(rd: Reading, server: Server, ops: seq<Operation>) {
    forall rq: Request | rq.isGet ::
      LoadPage(rd, server, AfterOperations(rd, server, map[], ops), rq).result
        == LoadPage(rd, server, map[], rq.(read := false, write := false)).result
  }

  /**
   * Cache transparency: every page load by GET in every run ends as it does with the cache off,
   * errors included, exactly if the server answers equivalent urls alike, redirects aside.
   */
  lemma CacheIsTransparentIff(rd: Reading, server: Server)
    requires Normal(rd)
    ensures (forall ops :: TransparentAfter(rd, server, ops)) <==> Uniform(rd, server)
  {
    if Uniform(rd, server) {
      forall ops ensures TransparentAfter(rd, server, ops) {
        RecordsAreFaithful(rd, server, map[], ops);
        var pages := AfterOperations(rd, server, map[], ops);
        forall rq: Request | rq.isGet
          ensures LoadPage(rd, server, pages, rq).result
               == LoadPage(rd, server, map[], rq.(read := false, write := false)).result
        {
          if rq.read && Found(rd, pages, rq.url).Some? {
            var key := Resolve(rd, rq.url);
            var u :| FetchedFrom(rd, server, key, pages[key], u);
            assert Equivalent(rd, u, rq.url);
          }
        }
      }
    } else {
      var u, v :| Equivalent(rd, u, v) && Storable(rd, server, u)
                  && Settle(server.get(rd.norm(u))) != Settle(server.get(rd.norm(v)));
      OutdatedRecord(rd, server, u, v);
    }
  }

  /** One load fills the cache, a second one is answered from it. */
  lemma OutdatedRecord(rd: Reading, server: Server, u: string, v: string)
    requires Normal(rd) && Equivalent(rd, u, v) && Storable(rd, server, u)
    requires Settle(server.get(rd.norm(u))) != Settle(server.get(rd.norm(v)))
    ensures !TransparentAfter(rd, server, [Load(Request(u, false, true, true))])
  {
    var op := Load(Request(u, false, true, true));
    var rq := Request(v, true, false, true);
    assert [op][1..] == [];
    var pages := Operated(rd, server, map[], op);
    assert AfterOperations(rd, server, map[], [op]) == pages;
    assert Found(rd, pages, v).Some?;
    assert LoadPage(rd, server, pages, rq).result == Settle(server.get(rd.norm(u)));
    assert LoadPage(rd, server, map[], rq.(read := false, write := false)).result == Settle(server.get(rd.norm(v)));
  }
}
