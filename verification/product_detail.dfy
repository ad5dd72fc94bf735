/**
 * The product page (app/components/clients/productDetail.tsx): its image
 * resolver and the image gallery, whose selected index starts at 0 and is
 * changed only by clicking a thumbnail.
 */
module ProductDetail {
  import opened Common
  import opened Catalog

  const Placeholder: string := NoImage("600x600")

  /** `getImageUrl(url)`: "" gives the 600x600 placeholder, `http…` is kept, anything else is prefixed. */
  function ImageUrl(env: Env, url: string): (r: string)
    ensures url == "" ==> r == Placeholder
    ensures url != "" && StartsWith(url, "http") ==> r == url
    ensures url != "" && !StartsWith(url, "http") ==> r == Interpolate(env.strapiBaseUrl) + url
  {
    if url == "" then Placeholder
    else if StartsWith(url, "http") then url
    else Interpolate(env.strapiBaseUrl) + url
  }

  /** The gallery: the product's images (empty when missing) and the selected index. */
  datatype Gallery = Gallery(images: seq<Image>, selected: nat)

  /** The selected index always names an image, or is 0 for a product without images. */
  predicate Valid(g: Gallery) {
    g.selected == 0 || g.selected < |g.images|
  }

  /** The gallery a product page mounts with. */
  function Open(p: Product): (g: Gallery)
    ensures g.selected == 0 && Valid(g)
    ensures g.images == (if p.images.Some? then p.images.value else [])
  {
    Gallery(if p.images.Some? && |p.images.value| > 0 then p.images.value else [], 0)
  }

  /** The thumbnail buttons, each carrying its own position; none unless there are two or more images. */
  function Thumbnails(g: Gallery): (t: seq<nat>)
    ensures |g.images| <= 1 ==> t == []
    ensures |g.images| > 1 ==> |t| == |g.images|
    ensures forall k :: 0 <= k < |t| ==> t[k] == k
  {
    if |g.images| <= 1 then [] else seq(|g.images|, k => k)
  }

  /** Clicking the k-th thumbnail selects that thumbnail's position, which stays within the images. */
  function Click(g: Gallery, k: nat): (r: Gallery)
    requires k < |Thumbnails(g)|
    ensures r.images == g.images && r.selected == k && Valid(r)
  {
    g.(selected := Thumbnails(g)[k])
  }

  /** The large image: the placeholder with no images, otherwise the resolved url of the selected one. */
  function ActiveImage(env: Env, g: Gallery): (r: string)
    requires Valid(g)
    ensures |g.images| == 0 ==> r == Placeholder
    ensures |g.images| > 0 ==> r == ImageUrl(env, g.images[g.selected].url)
  {
    if |g.images| > 0 then ImageUrl(env, g.images[g.selected].url) else Placeholder
  }

  /**
   * Any sequence of thumbnail clicks keeps the gallery valid and leaves the
   * last clicked position selected (the thumbnails never change, as the
   * images do not).
   */
  function ClickAll(g: Gallery, clicks: seq<nat>): (r: Gallery)
    requires Valid(g)
    requires forall i :: 0 <= i < |clicks| ==> clicks[i] < |Thumbnails(g)|
    ensures Valid(r) && r.images == g.images
    ensures clicks == [] ==> r == g
    ensures clicks != [] ==> r.selected == clicks[|clicks| - 1]
    decreases |clicks|
  {
    if clicks == [] then g
    else ClickAll(Click(g, clicks[0]), clicks[1..])
  }

  /** A page with one image shows it and never offers a thumbnail. */
  lemma SingleImageHasNoThumbnails(env: Env, p: Product, img: Image)
    requires p.images == Some([img])
    ensures Thumbnails(Open(p)) == []
    ensures ActiveImage(env, Open(p)) == ImageUrl(env, img.url)
  {
  }
}
