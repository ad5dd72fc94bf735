/**
 * The add-to-cart button (app/components/ui/AddToCartButton.tsx): a click
 * builds a cart item from the product, with an `image` URL made from its
 * first image, and hands it to the cart once. The cart store itself
 * (app/context/CartContext.tsx) is not part of this model; the call to it is
 * recorded as an effect.
 */
module AddToCartButton {
  import opened Common
  import opened Catalog

  const Placeholder: string := NoImage("600x400")
  const ToastSuffix: string := " added to cart!"

  /**
   * The item's image: with a truthy first-image url, the base-URL variable
   * as interpolated followed by that url — without any check for an
   * already absolute url; otherwise the 600x400 placeholder.
   */
  function ItemImage(env: Env, p: Product): (r: string)
    ensures !Truthy(FirstImageUrl(p)) ==> r == Placeholder
    ensures Truthy(FirstImageUrl(p)) ==> r == Interpolate(env.strapiBaseUrl) + FirstImageUrl(p).value
  {
    var url := FirstImageUrl(p);
    if Truthy(url) then Interpolate(env.strapiBaseUrl) + url.value else Placeholder
  }

  /** `{...product, image}`: every product field as it was, plus the `image` field. */
  datatype CartItem = CartItem(product: Product, image: string)

  /** One call into the cart store; `quantity` is `None` when the argument is left out. */
  datatype CartCall = AddToCart(item: CartItem, quantity: Option<int>)

  /** Everything a click does. */
  datatype Click = Click(defaultPrevented: bool, propagationStopped: bool, calls: seq<CartCall>, toast: string)

  /**
   * `handleAddToCart`: the event is stopped from following an enclosing link,
   * the cart is called exactly once with the item and no quantity, and a
   * success toast names the product.
   */
  function HandleAddToCart(env: Env, p: Product): (r: Click)
    ensures r.defaultPrevented && r.propagationStopped
    ensures |r.calls| == 1 && r.calls[0].quantity.None?
    ensures r.calls[0].item.product == p && r.calls[0].item.image == ItemImage(env, p)
    ensures r.toast == p.name + ToastSuffix
  {
    Click(true, true, [AddToCart(CartItem(p, ItemImage(env, p)), None)], p.name + ToastSuffix)
  }
}
