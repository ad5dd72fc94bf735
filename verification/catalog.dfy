/**
 * The shapes of catalogue data shared by the pages: an image record and a
 * product record as the content backend returns them, and the deployment
 * environment the pages read their backend address from.
 */
module Catalog {
  import opened Common
  import opened Blocks

  /** A media record; only its `url` is used by the storefront. */
  datatype Image = Image(id: int, url: string)

  /**
   * A product record. `images` is `None` when the backend omits the relation;
   * `documentId` is the newer string identifier, absent on older backends.
   * `price` is kept as an opaque integer.
   */
  datatype Product = Product(
    id: int,
    documentId: Option<string>,
    name: string,
    price: int,
    images: Option<seq<Image>>,
    description: Description)

  /**
   * The two environment variables: `strapiUrl` is read only by the shared
   * media helper, `strapiBaseUrl` by every page that builds a URL inline.
   */
  datatype Env = Env(strapiUrl: Option<string>, strapiBaseUrl: Option<string>)

  /** The placeholder-image service every page falls back to. */
  const PlaceholderService: string := "https://placehold.co/"

  /** The service's "No Image" picture at the given size, such as "600x400". */
  function NoImage(size: string): (url: string)
    ensures StartsWith(url, "http") && url != ""
  {
    var url := PlaceholderService + size + "/png?text=No+Image";
    assert url[..4] == PlaceholderService[..4];
    url
  }

  /** `product.images?.[0]?.url`. */
  function FirstImageUrl(p: Product): (url: Option<string>)
    ensures url.Some? <==> p.images.Some? && |p.images.value| > 0
    ensures url.Some? ==> url.value == p.images.value[0].url
  {
    match p.images
    case None => None
    case Some(imgs) => if |imgs| == 0 then None else Some(imgs[0].url)
  }
}
