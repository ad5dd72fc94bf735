/**
 * The home page (app/components/clients/homepage.tsx): the image resolver for
 * product cards, which reads a product's first image, and the greeting, which
 * shows the user read from local storage on mount.
 */
module Homepage {
  import opened Common
  import opened Catalog
  import Auth

  const Placeholder: string := NoImage("600x400")

  /**
   * `getImageUrl(item)`: no first image (or an empty url) gives the 600x400
   * placeholder, an `http…` url is kept, anything else is appended to the
   * base-URL variable as interpolated (the text "undefined" when unset).
   */
  function ImageUrl(env: Env, item: Product): (url: string)
    ensures !Truthy(FirstImageUrl(item)) ==> url == Placeholder
    ensures Truthy(FirstImageUrl(item)) && StartsWith(FirstImageUrl(item).value, "http")
            ==> url == FirstImageUrl(item).value
    ensures Truthy(FirstImageUrl(item)) && !StartsWith(FirstImageUrl(item).value, "http")
            ==> url == Interpolate(env.strapiBaseUrl) + FirstImageUrl(item).value
  {
    var img := FirstImageUrl(item);
    if !Truthy(img) then Placeholder
    else if StartsWith(img.value, "http") then img.value
    else Interpolate(env.strapiBaseUrl) + img.value
  }

  /** Only the first image is consulted: the images after it never change the card. */
  lemma OnlyFirstImageRead(env: Env, item: Product, first: Image, rest: seq<Image>)
    requires item.images == Some([first] + rest)
    ensures ImageUrl(env, item) == ImageUrl(env, item.(images := Some([first])))
  {
  }

  /** With an `http…` base variable, every card URL is external, so resolving it again would keep it. */
  lemma CardUrlIsHttp(env: Env, item: Product)
    requires env.strapiBaseUrl.Some? && StartsWith(env.strapiBaseUrl.value, "http")
    ensures StartsWith(ImageUrl(env, item), "http")
  {
  }

  /** The user the greeting shows: the stored user when present, otherwise none; a bad entry throws. */
  function GreetingUser(store: Auth.Store, codec: Auth.Codec): (r: Result<Option<Auth.User>>)
    ensures !Truthy(Auth.GetItem(store, Auth.UserKey)) ==> r == Ok(None)
    ensures r.Ok? && r.value.Some? ==> Auth.UserKey in store && codec.decode(store[Auth.UserKey]) == r.value
    ensures Truthy(Auth.GetItem(store, Auth.UserKey))
            ==> && (r.Ok? <==> codec.decode(store[Auth.UserKey]).Some?)
                && (r.Ok? ==> r.value == codec.decode(store[Auth.UserKey]))
  {
    match Auth.ReadStoredUser(store, codec)
    case NoUser => Ok(None)
    case Stored(u) => Ok(Some(u))
    case Unparsable => Error("JSON.parse failed")
  }

  /** The greeting and the session context read storage the same way, so they agree after a reload. */
  lemma GreetingMatchesSession(store: Auth.Store, codec: Auth.Codec)
    ensures var h := Auth.Hydrate(Auth.Initial(store), codec);
            var g := GreetingUser(store, codec);
            h.Ok? == g.Ok? && (h.Ok? ==> g.value == h.value.user)
  {
  }

  /** After a login the greeting shows that user. */
  lemma GreetingAfterLogin(st: Auth.AuthState, codec: Auth.Codec, u: Auth.User, token: string)
    requires Auth.Faithful(codec)
    ensures GreetingUser(Auth.Login(st, codec, u, token).store, codec) == Ok(Some(u))
  {
  }
}
