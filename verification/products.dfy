/**
 * The catalogue grid (app/components/clients/products.tsx): each card's
 * image, taken from the product's first image, and the id its links use.
 */
module ProductListing {
  import opened Common
  import opened Catalog

  const Placeholder: string := NoImage("400x400")

  /** `getImageUrl(url)`: undefined or "" gives the 400x400 placeholder, `http…` is kept, anything else is prefixed. */
  function ImageUrl(env: Env, url: Option<string>): (r: string)
    ensures !Truthy(url) ==> r == Placeholder
    ensures Truthy(url) && StartsWith(url.value, "http") ==> r == url.value
    ensures Truthy(url) && !StartsWith(url.value, "http") ==> r == Interpolate(env.strapiBaseUrl) + url.value
  {
    if !Truthy(url) then Placeholder
    else if StartsWith(url.value, "http") then url.value
    else Interpolate(env.strapiBaseUrl) + url.value
  }

  /** The card's first-image url: "" when the product has no images. */
  function FirstImage(p: Product): (url: string)
    ensures p.images.None? || p.images.value == [] ==> url == ""
    ensures p.images.Some? && p.images.value != [] ==> url == p.images.value[0].url
  {
    if p.images.Some? && |p.images.value| > 0 then p.images.value[0].url else ""
  }

  /** The image a card shows: the placeholder unless the first image has a non-empty url, which is then resolved. */
  function CardImage(env: Env, p: Product): (r: string)
    ensures p.images.None? || p.images.value == [] ==> r == Placeholder
    ensures !Truthy(FirstImageUrl(p)) ==> r == Placeholder
    ensures Truthy(FirstImageUrl(p)) ==> r == ImageUrl(env, FirstImageUrl(p))
  {
    ImageUrl(env, Some(FirstImage(p)))
  }

  /** The id in a card's links: the document id when truthy, otherwise the numeric id. */
  datatype LinkId = DocumentId(doc: string) | NumericId(id: int)

  function CardLinkId(p: Product): (r: LinkId)
    ensures r.DocumentId? <==> Truthy(p.documentId)
    ensures r.DocumentId? ==> r.doc == p.documentId.value
    ensures r.NumericId? ==> r.id == p.id
  {
    if Truthy(p.documentId) then DocumentId(p.documentId.value) else NumericId(p.id)
  }

  /** An empty document id is falsy, so the link falls back to the numeric id. */
  lemma EmptyDocumentIdFallsBack(p: Product)
    requires p.documentId == Some("")
    ensures CardLinkId(p) == NumericId(p.id)
  {
  }
}
