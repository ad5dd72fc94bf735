/**
 * The shared media helpers (app/lib/strapi.ts): the backend base address, a
 * path-to-URL helper, and the media-URL resolver that leaves external links
 * alone and prefixes backend-relative paths with the base address.
 */
module Strapi {
  import opened Common
  import opened Catalog

  /** The address used when the environment does not provide one. */
  const DefaultBase: string := "http://localhost:1337"

  /** `NEXT_PUBLIC_STRAPI_URL || "http://localhost:1337"`: an unset or empty variable falls back. */
  function Base(env: Env): (base: string)
    ensures Truthy(env.strapiUrl) ==> base == env.strapiUrl.value
    ensures !Truthy(env.strapiUrl) ==> base == DefaultBase
    ensures base != ""
  {
    if Truthy(env.strapiUrl) then env.strapiUrl.value else DefaultBase
  }

  /** `getStrapiURL(path)`: the base followed by the path (the default path is ""). */
  function StrapiURL(base: string, path: string): (url: string)
    ensures |url| == |base| + |path|
    ensures StartsWith(url, base) && url[|base|..] == path
  {
    base + path
  }

  /** The default argument of `getStrapiURL` yields the base itself. */
  lemma DefaultPathIsBase(base: string)
    ensures StrapiURL(base, "") == base
  {
  }

  /** A URL the resolver treats as already complete: `http…` (so also `https…`) or protocol-relative `//…`. */
  predicate IsExternal(url: string) {
    StartsWith(url, "http") || StartsWith(url, "//")
  }

  /** `getStrapiMedia(url)`: null stays null, external links pass through, anything else is prefixed. */
  function StrapiMedia(base: string, url: Option<string>): (r: Option<string>)
    ensures r.None? <==> url.None?
    ensures url.Some? && IsExternal(url.value) ==> r == url
    ensures url.Some? && !IsExternal(url.value) ==> r == Some(StrapiURL(base, url.value))
  {
    match url
    case None => None
    case Some(u) => if IsExternal(u) then Some(u) else Some(base + u)
  }

  /** Whatever the input, a resolved URL ends with the input it came from. */
  lemma MediaKeepsInputAsSuffix(base: string, url: string)
    ensures var r := StrapiMedia(base, Some(url)).value;
            |url| <= |r| && r[|r| - |url|..] == url
  {
  }

  /** With an `http…` base, every non-null result is external. */
  lemma MediaResultIsExternal(base: string, url: string)
    requires StartsWith(base, "http")
    ensures IsExternal(StrapiMedia(base, Some(url)).value)
  {
  }

  /** With an `http…` base, resolving a resolved URL again changes nothing. */
  lemma MediaIdempotent(base: string, url: string)
    requires StartsWith(base, "http")
    ensures StrapiMedia(base, StrapiMedia(base, Some(url))) == StrapiMedia(base, Some(url))
  {
  }

  /** Under the configured base, an unset or empty variable resolves relative paths against localhost. */
  lemma UnsetEnvUsesLocalhost(env: Env, url: string)
    requires !Truthy(env.strapiUrl) && !IsExternal(url)
    ensures StrapiMedia(Base(env), Some(url)) == Some("http://localhost:1337" + url)
  {
  }
}
