/**
 * The account page (app/profile/page.tsx): the mount effect that guards the
 * page and loads the user's orders and addresses, and address deletion.
 * HTTP replies and the user's confirmation answer are inputs.
 */
module Profile {
  import opened Common
  import opened Auth

  const LoadFailedToast: string := "Could not load profile data."
  const AddressDeletedToast: string := "Address deleted."
  const DeleteFailedToast: string := "Failed to delete address."

  datatype Order = Order(id: int, status: string)
  datatype Address = Address(id: int, fullAddress: string)

  /** The lists shown on the page and whether a load is in progress. */
  datatype Page = Page(orders: seq<Order>, addresses: seq<Address>, loading: bool)

  /** The orders and addresses queries are both filtered by this user id and carry this bearer token. */
  datatype Query = Query(userId: int, token: string)

  /** Both replies arriving, or either request failing (the lists are set only after both arrive). */
  datatype FetchReply = Fetched(orders: seq<Order>, addresses: seq<Address>) | FetchFailed

  datatype Toast = NoToast | Success(text: string) | Failure(text: string)

  datatype EffectOutcome = EffectOutcome(redirect: Option<string>, query: Option<Query>, page: Page, toast: Toast)

  /** The guard reads storage, not the context: both the token and the stored user must be truthy. */
  function SignedIn(store: Store): (b: bool)
    ensures b <==> && JwtKey in store && store[JwtKey] != ""
                   && UserKey in store && store[UserKey] != ""
  {
    Truthy(GetItem(store, JwtKey)) && Truthy(GetItem(store, UserKey))
  }

  /**
   * The mount effect. A missing token or stored user sends the visitor to the
   * login page and fetches nothing. Otherwise data is fetched only when the
   * context has a user, with that user's id and the stored token; a failed
   * fetch keeps the lists and raises an error toast; loading ends off.
   */
  function ProfileEffect(store: Store, user: Option<User>, page: Page, reply: FetchReply): (r: EffectOutcome)
    ensures !SignedIn(store) ==> r.redirect == Some(LoginPath) && r.query.None? && r.page == page
    ensures r.query.Some? <==> SignedIn(store) && user.Some?
    ensures r.query.Some? ==> r.query.value == Query(user.value.id, store[JwtKey])
    ensures r.redirect.Some? <==> !SignedIn(store)
    ensures r.query.None? ==> r.page == page && r.toast.NoToast?
    ensures r.query.Some? ==> !r.page.loading
    ensures r.query.Some? && reply.Fetched?
            ==> r.page.orders == reply.orders && r.page.addresses == reply.addresses && r.toast.NoToast?
    ensures r.query.Some? && reply.FetchFailed?
            ==> r.page.orders == page.orders && r.page.addresses == page.addresses
                && r.toast == Failure(LoadFailedToast)
  {
    if !SignedIn(store) then
      EffectOutcome(Some(LoginPath), None, page, NoToast)
    else if user.None? then
      EffectOutcome(None, None, page, NoToast)
    else
      var query := Some(Query(user.value.id, store[JwtKey]));
      match reply
      case Fetched(orders, addresses) =>
        EffectOutcome(None, query, Page(orders, addresses, false), NoToast)
      case FetchFailed =>
        EffectOutcome(None, query, page.(loading := false), Failure(LoadFailedToast))
  }

  /** After a logout the page can only redirect: no query is ever made, whatever the context holds. */
  lemma LoggedOutVisitorRedirected(st: AuthState, user: Option<User>, page: Page, reply: FetchReply)
    ensures var r := ProfileEffect(Logout(st).state.store, user, page, reply);
            r.redirect == Some(LoginPath) && r.query.None?
  {
  }

  /** After a login the guard passes and the query uses the token just stored. */
  lemma LoggedInVisitorFetches(st: AuthState, codec: Codec, u: User, token: string, page: Page, reply: FetchReply)
    requires Faithful(codec) && token != ""
    ensures var stored := Login(st, codec, u, token).store;
            var r := ProfileEffect(stored, Some(u), page, reply);
            r.redirect.None? && r.query == Some(Query(u.id, token))
  {
  }

  datatype DeleteOutcome = DeleteOutcome(addresses: seq<Address>, requested: bool, toast: Toast)

  function AddressId(a: Address): int {
    a.id
  }

  /**
   * `handleDeleteAddress(id)`: a declined confirmation does nothing; after a
   * successful request exactly the addresses with that id are gone, the rest
   * in their order; a failed request leaves the list as it was.
   */
  function HandleDeleteAddress(addresses: seq<Address>, id: int, confirmed: bool, deleted: bool): (r: DeleteOutcome)
    ensures !confirmed ==> r == DeleteOutcome(addresses, false, NoToast)
    ensures confirmed ==> r.requested
    ensures confirmed && !deleted ==> r.addresses == addresses && r.toast == Failure(DeleteFailedToast)
    ensures confirmed && deleted ==> r.toast == Success(AddressDeletedToast)
    ensures confirmed && deleted ==> forall i :: 0 <= i < |r.addresses| ==> r.addresses[i].id != id && r.addresses[i] in addresses
    ensures confirmed && deleted ==> forall i :: 0 <= i < |addresses| && addresses[i].id != id ==> addresses[i] in r.addresses
    ensures confirmed && deleted ==> |r.addresses| <= |addresses|
  {
    if !confirmed then DeleteOutcome(addresses, false, NoToast)
    else if !deleted then DeleteOutcome(addresses, true, Failure(DeleteFailedToast))
    else DeleteOutcome(WithoutKey(addresses, AddressId, id), true, Success(AddressDeletedToast))
  }

  /** Deletions keep order: deleting from a concatenation deletes from each part. */
  lemma DeleteAddressKeepsOrder(front: seq<Address>, back: seq<Address>, id: int)
    ensures HandleDeleteAddress(front + back, id, true, true).addresses
         == HandleDeleteAddress(front, id, true, true).addresses + HandleDeleteAddress(back, id, true, true).addresses
  {
    WithoutKeyAppend(front, back, AddressId, id);
  }

  /**
   * A single address is dropped exactly when it carries the id, deleting an
   * id no address carries changes nothing, and deleting twice equals
   * deleting once. With `DeleteAddressKeepsOrder` this fixes the result of
   * every deletion: each survivor appears once, in its original place.
   */
  lemma DeleteAddressSingleAbsentAndTwice(addresses: seq<Address>, a: Address, id: int)
    ensures HandleDeleteAddress([a], id, true, true).addresses == if a.id == id then [] else [a]
    ensures (forall i :: 0 <= i < |addresses| ==> addresses[i].id != id)
            ==> HandleDeleteAddress(addresses, id, true, true).addresses == addresses
    ensures var once := HandleDeleteAddress(addresses, id, true, true).addresses;
            HandleDeleteAddress(once, id, true, true).addresses == once
  {
    if forall i :: 0 <= i < |addresses| ==> addresses[i].id != id {
      WithoutAbsentKey(addresses, AddressId, id);
    }
    WithoutKeyIdempotent(addresses, AddressId, id);
  }
}
