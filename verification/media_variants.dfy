/**
 * How the six image-URL resolvers of the storefront relate. The shared
 * helper (`Strapi.StrapiMedia`) reads its own environment variable with a
 * localhost fallback and also keeps protocol-relative `//…` urls; the page
 * resolvers read a second variable with no fallback, keep only `http…`
 * urls, and each has its own placeholder; the add-to-cart button keeps
 * nothing and prefixes every url, exactly as the admin list's thumbnail does.
 */
module MediaVariants {
  import opened Common
  import opened Catalog
  import Strapi
  import Homepage
  import ProductDetail
  import ProductListing
  import AddToCartButton
  import Dashboard

  /** The three page resolvers agree on every product that has a non-empty first image url. */
  lemma PagesAgreeOnImages(env: Env, p: Product)
    requires Truthy(FirstImageUrl(p))
    ensures Homepage.ImageUrl(env, p) == ProductListing.CardImage(env, p)
    ensures Homepage.ImageUrl(env, p) == ProductDetail.ActiveImage(env, ProductDetail.Open(p))
    ensures Homepage.ImageUrl(env, p) == ProductDetail.ImageUrl(env, FirstImageUrl(p).value)
  {
  }

  /** Without a usable first image the pages fall back to three different placeholders (two of them equal). */
  lemma PlaceholdersDiffer(env: Env, p: Product)
    requires p.images.None? || p.images.value == []
    ensures Homepage.ImageUrl(env, p) == AddToCartButton.ItemImage(env, p) == Homepage.Placeholder
    ensures ProductListing.CardImage(env, p) == ProductListing.Placeholder
    ensures ProductDetail.ActiveImage(env, ProductDetail.Open(p)) == ProductDetail.Placeholder
    ensures Homepage.Placeholder != ProductListing.Placeholder && ProductListing.Placeholder != ProductDetail.Placeholder
    ensures ProductDetail.Placeholder != Homepage.Placeholder
  {
    var n := |PlaceholderService|;
    assert Homepage.Placeholder[n] == '6' && ProductListing.Placeholder[n] == '4';
    assert ProductDetail.Placeholder[n + 4] == '6' && Homepage.Placeholder[n + 4] == '4';
    assert ProductDetail.Placeholder[n] == '6';
  }

  /**
   * When both variables hold the same truthy address, the shared helper and
   * the page resolvers agree on every relative url that is not
   * protocol-relative.
   */
  lemma SharedHelperAgreesOnRelative(env: Env, url: string)
    requires Truthy(env.strapiUrl) && env.strapiBaseUrl == env.strapiUrl
    requires url != "" && !StartsWith(url, "//")
    ensures Strapi.StrapiMedia(Strapi.Base(env), Some(url)) == Some(ProductDetail.ImageUrl(env, url))
    ensures Strapi.StrapiMedia(Strapi.Base(env), Some(url)) == Some(ProductListing.ImageUrl(env, Some(url)))
  {
  }

  /**
   * A protocol-relative url is kept by the shared helper but prefixed by the
   * page resolvers (unless the base variable is set to the empty string).
   */
  lemma ProtocolRelativeDiverges(env: Env, url: string)
    requires StartsWith(url, "//")
    ensures Strapi.StrapiMedia(Strapi.Base(env), Some(url)) == Some(url)
    ensures ProductDetail.ImageUrl(env, url) == Interpolate(env.strapiBaseUrl) + url
    ensures ProductDetail.ImageUrl(env, url) == url <==> env.strapiBaseUrl == Some("")
  {
    assert url[0] == '/';
    assert !StartsWith(url, "http");
    if env.strapiBaseUrl != Some("") {
      assert |Interpolate(env.strapiBaseUrl)| > 0;
    }
  }

  /**
   * The add-to-cart button prefixes absolute urls too: for an `http…` first
   * image its item image differs from the card the home page shows exactly
   * when the interpolated base is non-empty.
   */
  lemma CartPrefixesAbsoluteUrls(env: Env, p: Product)
    requires Truthy(FirstImageUrl(p)) && StartsWith(FirstImageUrl(p).value, "http")
    ensures Homepage.ImageUrl(env, p) == FirstImageUrl(p).value
    ensures AddToCartButton.ItemImage(env, p) == Interpolate(env.strapiBaseUrl) + FirstImageUrl(p).value
    ensures AddToCartButton.ItemImage(env, p) != Homepage.ImageUrl(env, p)
            <==> Interpolate(env.strapiBaseUrl) != ""
  {
  }

  /** The admin list row and the cart item build the same URL whenever a product has a usable first image. */
  lemma RowImageMatchesCartImage(env: Env, p: Product)
    ensures Dashboard.RowImage(env, p).Some? ==> Dashboard.RowImage(env, p).value == AddToCartButton.ItemImage(env, p)
    ensures Dashboard.RowImage(env, p).None? ==> AddToCartButton.ItemImage(env, p) == Homepage.Placeholder
  {
  }

  /** With an unset base variable, a relative url is turned into a path under the text "undefined". */
  lemma UnsetBaseYieldsUndefined(env: Env, url: string)
    requires env.strapiBaseUrl.None? && url != "" && !StartsWith(url, "http")
    ensures ProductDetail.ImageUrl(env, url) == "undefined" + url
  {
  }

  /** With an `http…` base variable, resolving an already resolved url again changes nothing. */
  lemma PageResolverIdempotent(env: Env, url: string)
    requires env.strapiBaseUrl.Some? && StartsWith(env.strapiBaseUrl.value, "http")
    ensures ProductDetail.ImageUrl(env, ProductDetail.ImageUrl(env, url)) == ProductDetail.ImageUrl(env, url)
  {
  }
}
