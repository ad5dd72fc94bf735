# Dej Carving Shop storefront logic, modelled in Dafny

The storefront is a web front end for a wood-carving antiques shop. It reads
products from a headless content-management backend. Almost all of it is
presentation. This project models the small amount of decision logic it has:

- **Media URLs.** The shared helper `getStrapiMedia`/`getStrapiURL` and five
  local resolvers turn a backend image path into a URL a browser can load.
  They are the home page, product page and catalogue `getImageUrl`, the
  add-to-cart button's inline resolver and the admin list's thumbnail. They
  differ in three ways: which environment variable they read, which URLs
  they keep as they are, and which placeholder they fall back to.
- **Rich-text descriptions.** The admin dashboard converts a plain string to
  the backend's "blocks" structure and back.
- **Admin product manager.** Delete-by-id, the create-or-update request built
  on submit, and the modal form's open/close/reset.
- **Session context.** The current user plus local storage, where the session
  lives under the keys `"user"` and `"jwt"`. Covers hydration on mount,
  `login`, `logout` and the `useAuth` guard.
- **Forms.** Register and login outcomes and their error messages, and the
  profile page's guard, data load and address deletion.
- **Gallery and catalogue cards.** The product page's selected-image index
  and the catalogue card's image and link id.
- **Add-to-cart button.** The item it builds and the single call it makes
  into the cart.

Every I/O step is an input to a pure function: HTTP replies, the
confirmation dialog's answer, and the value of `localStorage`, which is a
`map<string, string>`. Router navigation and toasts/alerts become fields of
the outcome. `JSON.stringify`/`JSON.parse` are a `Codec` parameter. The
lemmas that need it to round-trip require `Auth.Faithful`, which also asks
that an encoded user is never the empty (falsy) string.

JavaScript details are modelled explicitly:

- The page resolvers read `NEXT_PUBLIC_STRAPI_BASE_URL` with no fallback. An
  unset variable is interpolated as the text `"undefined"`.
- The shared helper reads `NEXT_PUBLIC_STRAPI_URL` and falls back to
  `http://localhost:1337` when the variable is unset or empty.
- A string is falsy when it is missing or empty.
- The numeric id 0 is falsy. Editing a product whose id is 0 therefore
  creates a new product, and an uploaded file whose id is 0 is not attached.
- `password.length` counts UTF-16 code units, not characters.

Modules follow the source files:

- `Common`: option/result types, interpolation, truthiness, UTF-16 length,
  filtering by id.
- `Blocks`, `Catalog`, `Strapi`, `Auth`.
- One module per page: `Register`, `LoginPage`, `Profile`, `Dashboard`,
  `Homepage`, `ProductDetail`, `ProductListing`, `AddToCartButton`.
- `MediaVariants`: lemmas that compare the six image resolvers.

## Model

| member | source | states |
|---|---|---|
| Common.WithoutKey | app/dashboard/page.tsx:83 | Every kept record has a different id and came from the input. Every input record with a different id is kept. |
| Common.WithoutKeyAppend | app/profile/page.tsx:70 | Filtering distributes over concatenation, so the kept records stay in their original relative order. |
| Common.WithoutAbsentKey | app/dashboard/page.tsx:83 | Removing an id that no record carries returns the list unchanged. |
| Common.WithoutKeyIdempotent | app/dashboard/page.tsx:83 | Removing the same id a second time changes nothing. |
| Common.Interpolate | app/components/clients/productDetail.tsx:14 | A present variable is inserted as itself. A missing one is inserted as the non-empty text `"undefined"`. |
| Common.Utf16Length | app/components/clients/register.tsx:68 | `password.length` counts UTF-16 units. It lies between the character count and twice that count, and equals the character count when no character is outside the Basic Multilingual Plane. |
| Blocks.TextToBlocks | app/dashboard/page.tsx:12-17 | The result is exactly one paragraph block whose single text child carries the whole input string. |
| Blocks.BlocksToText | app/dashboard/page.tsx:19-26 | When the first child of the first block carries a text, that text is the result. In every other case, including a thrown lookup, the result is "". |
| Blocks.ProbeFirstText | app/dashboard/page.tsx:21-24 | The lookup throws exactly when the block list, or the first block's children, is missing. It finds a text exactly when the first child of the first block carries one, and then returns that text. |
| Blocks.TextRoundTrip | app/dashboard/page.tsx:12-26 | Converting any string to blocks and back gives the same string, including the empty string. |
| Blocks.BlocksRoundTrip | app/dashboard/page.tsx:12-26 | A block list produced from a string survives the trip to a string and back. |
| Blocks.OnlyFirstChildRead | app/dashboard/page.tsx:22 | Later children, later blocks and the block kind do not affect the text. |
| Blocks.EmptyCases | app/dashboard/page.tsx:21-25 | A missing list, an empty list, or a first block without children or without text gives "". |
| Blocks.LaterBlocksAreDropped | app/dashboard/page.tsx:20-22 | A two-paragraph description converts to its first paragraph only, so converting it back does not reproduce it. |
| Catalog.FirstImageUrl | app/components/clients/homepage.tsx:43 | There is a first url exactly when the images list is present and non-empty, and it is the first image's url. |
| Catalog.NoImage | app/components/clients/products.tsx:11 | Each page's placeholder is the placehold.co "No Image" picture at its size. The URL is never empty and starts with `http`, so the shared helper and the three page resolvers keep it unchanged. The add-to-cart button and the admin thumbnail would still prefix it. |
| Strapi.Base | app/lib/strapi.ts:4 | The base is the environment value when it is truthy, and `http://localhost:1337` otherwise. It is never empty. |
| Strapi.StrapiURL | app/lib/strapi.ts:8-10 | The URL starts with the base, and what follows the base is exactly the path. |
| Strapi.DefaultPathIsBase | app/lib/strapi.ts:8 | The default empty path yields the base itself. |
| Strapi.StrapiMedia | app/lib/strapi.ts:13-25 | Null maps to null and only null does. `http…` and `//…` urls are returned unchanged. Any other url gives `getStrapiURL(url)`. |
| Strapi.MediaKeepsInputAsSuffix | app/lib/strapi.ts:19-24 | Every resolved URL ends with the url it was resolved from. |
| Strapi.MediaResultIsExternal | app/lib/strapi.ts:19-24 | With an `http…` base, every non-null result is an external URL. |
| Strapi.MediaIdempotent | app/lib/strapi.ts:19-24 | With an `http…` base, resolving an already resolved URL changes nothing. |
| Strapi.UnsetEnvUsesLocalhost | app/lib/strapi.ts:4-24 | With the variable unset or empty, a relative url resolves under `http://localhost:1337`. |
| Auth.GetItem | app/context/AuthContext.tsx:27 | An item is returned exactly when its key is stored, and it is the stored value. |
| Auth.ReadStoredUser | app/context/AuthContext.tsx:27-29 | Nothing is read when the `"user"` item is missing or empty. Otherwise the result is the decoded user, or a parse failure when decoding fails. |
| Auth.Initial | app/context/AuthContext.tsx:22 | A new provider has no user, whatever storage holds. |
| Auth.Hydrate | app/context/AuthContext.tsx:26-31 | Storage is never changed. With no stored user the state is unchanged. A stored user becomes the current user. Hydration throws exactly when the stored entry is unparsable. |
| Auth.Login | app/context/AuthContext.tsx:34-38 | The user becomes current. `"user"` holds the encoded user and `"jwt"` holds the token. No other key is added or changed. |
| Auth.Logout | app/context/AuthContext.tsx:41-47 | No user remains, and both session keys are removed. Every other key keeps its value. Navigation goes to /login. |
| Auth.LoginSurvivesReload | app/context/AuthContext.tsx:26-38 | With a faithful codec, a provider that hydrates from storage written by `login(u, t)` restores exactly u. |
| Auth.LogoutSurvivesReload | app/context/AuthContext.tsx:26-47 | After a logout, hydration finds nobody. |
| Auth.LogoutUndoesLogin | app/context/AuthContext.tsx:34-47 | A logout after a login leaves the same state as a logout alone. |
| Auth.UseAuth | app/context/AuthContext.tsx:56-62 | Outside a provider the hook throws its message, and it throws only there. Inside, it returns the provider's value. |
| Register.FailureMessage | app/components/clients/register.tsx:64-72 | The server's "already taken" message maps to the already-registered text. Any other failure gives the length message for passwords under 6 UTF-16 units, and the generic text otherwise. |
| Register.HandleRegister | app/components/clients/register.tsx:26-76 | A mismatch sets its message and sends nothing. Otherwise the credentials are sent. Success stores `"jwt"` and `"user"` and goes home with no error. Failure leaves storage alone. Loading ends false, and the previous error plays no part. |
| Register.ShortPasswordStillSent | app/components/clients/register.tsx:32-69 | The length rule is applied only after the server fails: a short matching password is sent, and a success reply is accepted. |
| Register.RegisterStoresLikeLogin | app/components/clients/register.tsx:50-54 | Registration writes storage exactly as `login` would, and a later reload restores the user. |
| Register.LengthCountsUtf16Units | app/components/clients/register.tsx:68 | Two astral-plane characters count as four units. |
| LoginPage.FailureMessage | app/login/page.tsx:49-53 | Status 400 or 401, and only those, gives the credentials message. Every other status, or no response, gives the connection message. |
| LoginPage.HandleLogin | app/login/page.tsx:24-57 | The email and password are always sent. Success applies `login(user, jwt)` with the reply's values and goes home. Failure leaves the session and sets the classified message. Loading ends false. |
| LoginPage.SuccessPersistsSession | app/login/page.tsx:39-42 | After a successful login the reply's user is current, the token is stored, and a reload restores the same session. |
| LoginPage.FailureIsReported | app/login/page.tsx:47-53 | Every failure shows one of the two messages, never an empty one. |
| Profile.SignedIn | app/profile/page.tsx:19-20 | The guard passes exactly when both `"jwt"` and `"user"` are stored and neither is the empty string. |
| Profile.ProfileEffect | app/profile/page.tsx:18-58 | A missing token or stored user redirects to /login and fetches nothing. Otherwise data is fetched exactly when the context has a user, using that user's id and the stored token. A failure keeps the lists and shows the error toast. |
| Profile.LoggedOutVisitorRedirected | app/profile/page.tsx:19-23 | After a logout the page only redirects, whatever the context holds. |
| Profile.LoggedInVisitorFetches | app/profile/page.tsx:19-43 | After a login with a non-empty token, the guard passes and the query uses that token and user id. |
| Profile.HandleDeleteAddress | app/profile/page.tsx:61-75 | A declined confirmation changes nothing and sends nothing. A failed delete keeps the list. A successful delete removes exactly the addresses with that id, and never lengthens the list. |
| Profile.DeleteAddressSingleAbsentAndTwice | app/profile/page.tsx:70 | A single address is dropped exactly when it carries the id. Deleting an absent id changes nothing, and deleting twice is the same as deleting once. |
| Profile.DeleteAddressKeepsOrder | app/profile/page.tsx:70 | The surviving addresses keep their order. |
| Dashboard.CloseModal | app/dashboard/page.tsx:148-153 | The modal is hidden, the form is all-empty, and the edited id and the file are null. |
| Dashboard.OpenNew | app/dashboard/page.tsx:159 | "Add Product" only shows the modal. It leaves the form, id and file as they were. |
| Dashboard.OpenEdit | app/dashboard/page.tsx:136-146 | Edits the product's id. The form holds its name, price text and `blocksToText` description, and the file is cleared. |
| Dashboard.BuildPayload | app/dashboard/page.tsx:105-118 | The name and price text are the form's. The description is exactly `textToBlocks` of the form's text, and converts back to that text. `images` is `[id]` exactly when a truthy id was uploaded, and is absent otherwise. |
| Dashboard.Target | app/dashboard/page.tsx:120-124 | A truthy edited id selects an update of that id. Anything else creates. |
| Dashboard.UploadedId | app/dashboard/page.tsx:97-102 | Without a file nothing is uploaded. With one, the first returned id is used. A failed upload or an empty reply throws. |
| Dashboard.HandleSubmit | app/dashboard/page.tsx:89-134 | A request is sent exactly when the upload step succeeds. Without a file there is never an `images` field. A failure alerts and keeps form and list. A success reloads the list and resets the form. Loading ends false. |
| Dashboard.EditThenSave | app/dashboard/page.tsx:105-146 | Editing then saving with no new file updates that product with its name, price text and first-paragraph description, and leaves its images alone. |
| Dashboard.EditKeepsOwnDescription | app/dashboard/page.tsx:110-142 | A description produced by the editor survives edit-and-save unchanged. |
| Dashboard.ZeroIdEditCreates | app/dashboard/page.tsx:120-137 | Editing a product whose id is 0 creates a new product on save. |
| Dashboard.SaveThenNewIsBlank | app/dashboard/page.tsx:126-159 | After a successful save, "Add Product" opens an empty form that will create. |
| Dashboard.FirstOpenIsBlank | app/dashboard/page.tsx:60-66 | On a freshly mounted manager, "Add Product" shows an empty form with no edited id, no file and loading off, and saving it creates a product with empty fields and no `images`. |
| Dashboard.RowImage | app/dashboard/page.tsx:177-179 | A list row has a thumbnail exactly when the first image url is truthy. The thumbnail is the interpolated base followed by that url. |
| Dashboard.HandleDelete | app/dashboard/page.tsx:79-87 | Without confirmation nothing is sent. A failure alerts and keeps the list. A success removes exactly the products with that id. |
| Dashboard.DeleteKeepsOrder | app/dashboard/page.tsx:83 | The surviving products keep their order. |
| Dashboard.DeleteAbsentAndTwice | app/dashboard/page.tsx:83 | Deleting an absent id changes nothing, and deleting twice is the same as deleting once. |
| Homepage.ImageUrl | app/components/clients/homepage.tsx:42-47 | A missing or empty first image gives the 600x400 placeholder. An `http…` url is kept. Any other url follows the interpolated base. |
| Homepage.OnlyFirstImageRead | app/components/clients/homepage.tsx:43 | Images after the first never change the card's URL. |
| Homepage.CardUrlIsHttp | app/components/clients/homepage.tsx:42-47 | With an `http…` base, every card URL starts with `http`. |
| Homepage.GreetingUser | app/components/clients/homepage.tsx:24-26 | With no truthy `"user"` item there is no greeting user. With one, the reader succeeds exactly when the item decodes, and then yields the decoded user. |
| Homepage.GreetingMatchesSession | app/components/clients/homepage.tsx:25-26 | The greeting and the session context's hydration read the same user and fail on the same inputs. |
| Homepage.GreetingAfterLogin | app/components/clients/homepage.tsx:25-26 | After a login the greeting shows that user. |
| ProductDetail.ImageUrl | app/components/clients/productDetail.tsx:11-15 | An empty url gives the 600x600 placeholder. An `http…` url is kept. Any other url follows the interpolated base. |
| ProductDetail.Open | app/components/clients/productDetail.tsx:19-22 | The selected index starts at 0. The gallery holds the product's images, or none when they are missing. |
| ProductDetail.Thumbnails | app/components/clients/productDetail.tsx:53-58 | There are no thumbnails unless there are two or more images. Then there is one per image, each carrying its own position. |
| ProductDetail.Click | app/components/clients/productDetail.tsx:58 | A thumbnail click selects that position, and the index stays within the images. |
| ProductDetail.ActiveImage | app/components/clients/productDetail.tsx:25-27 | With no images the large image is the placeholder. Otherwise it is the resolved url of the selected image. |
| ProductDetail.ClickAll | app/components/clients/productDetail.tsx:53-58 | After any sequence of clicks the gallery is valid and the last click is selected. |
| ProductDetail.SingleImageHasNoThumbnails | app/components/clients/productDetail.tsx:22-53 | A single image is shown, and no thumbnail is offered. |
| ProductListing.ImageUrl | app/components/clients/products.tsx:10-14 | An undefined or empty url gives the 400x400 placeholder. An `http…` url is kept. Any other url follows the interpolated base. |
| ProductListing.FirstImage | app/components/clients/products.tsx:44 | Missing or empty images give "". Otherwise the result is the first image's url. |
| ProductListing.CardImage | app/components/clients/products.tsx:44-45 | A product whose first image is missing or has an empty url shows the 400x400 placeholder. Otherwise the card shows that url resolved by `getImageUrl`. |
| ProductListing.CardLinkId | app/components/clients/products.tsx:48 | Links use the document id exactly when it is truthy, and the numeric id otherwise. |
| ProductListing.EmptyDocumentIdFallsBack | app/components/clients/products.tsx:48 | An empty document id falls back to the numeric id. |
| AddToCartButton.ItemImage | app/components/ui/AddToCartButton.tsx:21-23 | A truthy first url always follows the interpolated base, with no absolute-URL check. Otherwise the 600x400 placeholder is used. |
| AddToCartButton.HandleAddToCart | app/components/ui/AddToCartButton.tsx:16-36 | The event is stopped. The cart is called once, with the unchanged product plus `image`, and with no quantity. The toast names the product. |
| MediaVariants.PagesAgreeOnImages | app/components/clients/homepage.tsx:42-47 | The home, catalogue and product pages resolve any product with a usable first image to the same URL. |
| MediaVariants.PlaceholdersDiffer | app/components/clients/productDetail.tsx:12 | Without images the pages fall back to different placeholders. The home page and the cart share 600x400. |
| MediaVariants.SharedHelperAgreesOnRelative | app/lib/strapi.ts:19-24 | When both variables hold the same truthy address, the shared helper agrees with the page resolvers on every non-empty url that is not protocol-relative. |
| MediaVariants.ProtocolRelativeDiverges | app/lib/strapi.ts:19 | The shared helper keeps a `//…` url. A page resolver prefixes it, unless its variable is the empty string. |
| MediaVariants.CartPrefixesAbsoluteUrls | app/components/ui/AddToCartButton.tsx:21-22 | For an `http…` image, the cart's URL differs from the home page's exactly when the interpolated base is non-empty. |
| MediaVariants.RowImageMatchesCartImage | app/dashboard/page.tsx:177-179 | The admin row thumbnail and the cart item build the same URL. |
| MediaVariants.UnsetBaseYieldsUndefined | app/components/clients/productDetail.tsx:14 | With the variable unset, a relative url becomes `"undefined" + url`. |
| MediaVariants.PageResolverIdempotent | app/components/clients/productDetail.tsx:11-15 | With an `http…` base, resolving a resolved URL again changes nothing. |

## Left out

- The cart store (app/context/CartContext.tsx) is not part of this model. The button's call into it is recorded as an effect, and `addToCart`, quantities and totals are not modelled.
- HTTP requests are not modelled. Their replies are inputs: success values, status codes and server messages. Network timing, retries and the order in which two replies arrive are not modelled.
- The initial product loads on mount (dashboard, home page, catalogue and product server pages) are left out. They only copy a reply into state. The dashboard's reload after a save is modelled as an input list.
- The `confirm` dialog's answer is an input. Router navigation, alerts and toasts appear only as outcome fields. The `router.refresh()` after a logout is not modelled, because it only re-renders the page.
- `JSON.stringify`/`JSON.parse` are a parameter. A stored value that parses to something other than a user object is not modelled.
- Dashboard.OpenEdit: `String(price)` is the parameter `showPrice`. `Number(formData.price)` is left out, so the payload carries the price text, because numeric parsing and formatting are outside the model.
- The browser's `required` checks are not modelled: the dashboard's name and price inputs, the four register fields and the two login fields. They stop an empty submit before the handler runs, so `Dashboard.HandleSubmit`, `Register.HandleRegister` and `LoginPage.HandleLogin` also accept empty fields.
- Register.HandleRegister: describes only the final state of a submit. The brief `loading = true` while the request is in flight is not modelled, because it is not observable after the handler returns.
- LoginPage.HandleLogin, Dashboard.HandleSubmit, Profile.ProfileEffect: the same holds. Each describes only the final state, and the in-flight `loading = true` is not modelled.
- ProductDetail.ActiveImage: requires a valid gallery. `Open`, `Click` and `ClickAll` establish and preserve that, so every state the page can reach meets it.
- Rendering, styling, animation and the static pages (about, contact, navbar, layout, component-level login and profile) are not modelled.
