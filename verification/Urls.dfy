// src/helpers/Location.ts and src/modules/resolveUrl.ts: locations and the resolver option.
module Urls {
  import opened Wrappers

  /** A parsed location: path with query, and hash. Paths are already normalised by the URL parser. */
  datatype Location = Location(url: string, hash: string)

  /** The user's `resolveUrl` option; `None` when the option is not a function. */
  type Resolver = Option<string -> string>

  predicate IsAbsolute(url: string) {
    "//" <= url || "http" <= url
  }

  /** Runs the resolver and falls back to the given url when it returns nothing usable. */
  function ResolveUrl(resolver: Resolver, url: string): string {
    match resolver
    case None => url
    case Some(f) =>
      var result := f(url);
      if result == "" || IsAbsolute(result) then url else result
  }

  /** The resolver cannot lead away from the site, and any other answer of it is taken. */
  lemma ResolverStaysLocal(f: string -> string, url: string)
    ensures var result := ResolveUrl(Some(f), url);
      && (f(url) == "" || "//" <= f(url) || "http" <= f(url) ==> result == url)
      && (f(url) != "" && !("//" <= f(url)) && !("http" <= f(url)) ==> result == f(url))
      && ResolveUrl(None, url) == url
  {}

  predicate SameResolvedUrl(resolver: Resolver, url1: string, url2: string) {
    ResolveUrl(resolver, url1) == ResolveUrl(resolver, url2)
  }
}
