/**
 * The page of one product. It loads the product named by the route's `id`,
 * shows its image (or a placeholder), always offers Edit, and offers the
 * product's owner Move to Trash (or Restore, once it is in the trash) and a
 * permanent Delete. Both deletes ask for confirmation, Restore does not;
 * while any of the three calls is outstanding the buttons are disabled by
 * the `deleting` flag, which the handlers clear however the call ends.
 */
module ProductDetail {
  import opened Platform
  import opened Backend

  const LoadFallback := "Failed to load product details"
  /** The placeholder image, `https://via.placeholder.com/600x600?text=No+Image`. */
  const Placeholder := "https://" + "via.placeholder.com/600x600?text=No+Image"

  // ----- the image -----

  /** `imageUrl`: the stored image when it is an `http` URL, else the placeholder. */
  function ImageUrl(image: Option<string>): (r: string)
    ensures StartsWith(r, "http")
    ensures r == Placeholder || (image.Some? && r == image.value)
  {
    PlaceholderIsHttp();
    if Truthy(image) && StartsWith(image.value, "http") then image.value else Placeholder
  }

  lemma PlaceholderIsHttp()
    ensures StartsWith(Placeholder, "http")
  {
    assert "http" <= "https://";
  }

  /** An image already resolved is resolved to itself, and any stored `http` URL is shown as it is. */
  lemma ImageUrlIdempotent(image: Option<string>)
    ensures ImageUrl(Some(ImageUrl(image))) == ImageUrl(image)
    ensures image.Some? && StartsWith(image.value, "http") ==> ImageUrl(image) == image.value
    ensures image.None? || !StartsWith(image.value, "http") ==> ImageUrl(image) == Placeholder
  {
    PlaceholderIsHttp();
  }

  // ----- ownership and actions -----

  /** `String(x)` of an optional string: a missing value reads `"undefined"`. */
  function JsString(s: Option<string>): string {
    if s.Some? then s.value else "undefined"
  }

  /** `String(user._id || user.id)`. */
  function UserKey(user: User): string {
    if Truthy(user._id) then user._id.value else JsString(user.id)
  }

  /** `product.createdBy` is truthy: present, and not the empty string. */
  predicate CreatorPresent(createdBy: Creator) {
    match createdBy
    case NoCreator => false
    case CreatorId(ref) => ref != ""
    case Populated(_) => true
  }

  /** `String(product.createdBy._id || product.createdBy)`: a string has no `_id`, an object without one prints as `[object Object]`. */
  function CreatorKey(createdBy: Creator): string
    requires CreatorPresent(createdBy)
  {
    match createdBy
    case CreatorId(ref) => ref
    case Populated(id) => if Truthy(id) then id.value else "[object Object]"
  }

  /** The owner test of the detail page: a signed-in user, a creator, and the two keys equal as strings. */
  predicate DetailOwner(user: Option<User>, createdBy: Creator) {
    user.Some? && CreatorPresent(createdBy) && UserKey(user.value) == CreatorKey(createdBy)
  }

  /** Nobody owns anything without being signed in, and a populated creator is owned by the user with its `_id`. */
  lemma DetailOwnerPopulated(user: Option<User>, creatorId: string)
    requires creatorId != ""
    ensures !DetailOwner(None, Populated(Some(creatorId)))
    ensures user.Some? && Truthy(user.value._id) ==>
              (DetailOwner(user, Populated(Some(creatorId))) <==> user.value._id.value == creatorId)
    ensures user.Some? && !Truthy(user.value._id) && user.value.id.Some? ==>
              (DetailOwner(user, Populated(Some(creatorId))) <==> user.value.id.value == creatorId)
  {
  }

  /** A creator stored as a bare id string is recognised too, whether the user carries it as `_id` or as `id`. */
  lemma DetailOwnerBareId(ref: string)
    requires ref != ""
    ensures DetailOwner(Some(User(Some(ref), None)), CreatorId(ref))
    ensures DetailOwner(Some(User(None, Some(ref))), CreatorId(ref))
    ensures !DetailOwner(Some(User(None, Some(ref))), NoCreator)
  {
  }

  /** The buttons of the page: Edit for everyone; for the owner, Trash or Restore by the product's state, and Delete. */
  function DetailActions(user: Option<User>, product: Product): (r: set<Action>)
    ensures OfferEdit in r
    ensures OfferDeleteForever in r <==> DetailOwner(user, product.createdBy)
    ensures OfferTrash in r <==> DetailOwner(user, product.createdBy) && !product.isDeleted
    ensures OfferRestore in r <==> DetailOwner(user, product.createdBy) && product.isDeleted
  {
    if !DetailOwner(user, product.createdBy) then {OfferEdit}
    else if product.isDeleted then {OfferEdit, OfferRestore, OfferDeleteForever}
    else {OfferEdit, OfferTrash, OfferDeleteForever}
  }

  // ----- the lifecycle calls -----

  datatype Lifecycle = SoftDelete | ForceDelete | Restore

  /** The button that starts a call. */
  function ButtonOf(k: Lifecycle): Action {
    match k
    case SoftDelete => OfferTrash
    case ForceDelete => OfferDeleteForever
    case Restore => OfferRestore
  }

  /** Both deletes are guarded by `window.confirm`; Restore is not. */
  predicate NeedsConfirmation(k: Lifecycle) {
    !k.Restore?
  }

  function RequestOf(id: string, k: Lifecycle): Request {
    match k
    case SoftDelete => DeleteProduct(id)
    case ForceDelete => ForceDeleteProduct(id)
    case Restore => RestoreProduct(id)
  }

  function SuccessAlert(k: Lifecycle): string {
    match k
    case SoftDelete => "Product moved to trash!"
    case ForceDelete => "Product permanently deleted!"
    case Restore => "Product restored successfully!"
  }

  function FailureFallback(k: Lifecycle): string {
    match k
    case SoftDelete => "\U{274C} Failed to move to trash"
    case ForceDelete => "\U{274C} Failed to permanently delete product"
    case Restore => "\U{274C} Failed to restore product"
  }

  // ----- the page -----

  datatype Page = Page(
    id: string,                  // the route's `id`
    user: Option<User>,
    product: Option<Product>,
    loading: bool,
    error: Option<string>,
    deleting: bool,
    pending: Option<Lifecycle>,  // the call that is outstanding, if any
    alerts: seq<string>,
    location: Option<Navigation>,
    requests: seq<Request>)

  /** The load is the first request; `deleting` is set exactly while a call is outstanding, and none can be while loading. */
  predicate Valid(p: Page) {
    && |p.requests| >= 1 && p.requests[0] == GetProduct(p.id)
    && (p.deleting <==> p.pending.Some?)
    && (p.loading ==> p.product.None? && !p.deleting && |p.requests| == 1)
  }

  /** The page once its effect has asked for the product. */
  function Mount(id: string, user: Option<User>): (p: Page)
    ensures Valid(p) && p.loading && !p.deleting && p.error.None?
    ensures p.requests == [GetProduct(id)]
  {
    Page(id, user, None, true, None, false, None, [], None, [GetProduct(id)])
  }

  datatype Event =
    | Fetched(reply: Reply<Product>)
    | Click(kind: Lifecycle, confirmed: bool)  // a lifecycle button, with the answer to its confirmation
    | Settle(outcome: Reply<()>)
    | Edit

  /** The buttons that can be clicked now: those shown, unless a call is outstanding. */
  predicate Enabled(p: Page, k: Lifecycle) {
    p.location.None? && p.product.Some? && !p.deleting && ButtonOf(k) in DetailActions(p.user, p.product.value)
  }

  function Step(p: Page, e: Event): (q: Page)
    requires Valid(p)
    ensures Valid(q)
    ensures q.id == p.id && q.user == p.user
  {
    match e
    case Fetched(reply) =>
      if !p.loading then p
      else if reply.Ok? then p.(product := Some(reply.value), loading := false)
      else p.(error := Some(FailureText(reply, LoadFallback)), loading := false)
    case Click(k, confirmed) =>
      if !Enabled(p, k) || (NeedsConfirmation(k) && !confirmed) then p
      else p.(deleting := true, pending := Some(k), requests := p.requests + [RequestOf(p.id, k)])
    case Settle(outcome) =>
      if p.pending.None? then p
      else
        var k := p.pending.value;
        var p' := p.(deleting := false, pending := None);
        if outcome.Ok? then p'.(alerts := p.alerts + [SuccessAlert(k)], location := Some(Navigate("/", None)))
        else p'.(alerts := p.alerts + [FailureText(outcome, FailureFallback(k))])
    case Edit =>
      if p.location.Some? || p.product.None? then p
      else p.(location := Some(Navigate("/edit-product/" + p.product.value._id, None)))
  }

  /** The load clears `loading` either way; a failure shows the server's message or the fallback. */
  lemma FetchOutcome(p: Page, reply: Reply<Product>)
    requires Valid(p) && p.loading
    ensures var q := Step(p, Fetched(reply));
      && !q.loading && q.requests == p.requests
      && (reply.Ok? ==> q.product == Some(reply.value) && q.error == p.error)
      && (reply.Fail? ==> q.product.None? && q.error == Some(FailureText(reply, LoadFallback)))
  {
  }

  /** A declined confirmation sends nothing; Restore sends its request whatever the answer. */
  lemma ConfirmationGate(p: Page, k: Lifecycle, confirmed: bool)
    requires Valid(p)
    ensures NeedsConfirmation(k) && !confirmed ==> Step(p, Click(k, confirmed)) == p
    ensures Enabled(p, k) && (confirmed || !NeedsConfirmation(k)) ==>
              Step(p, Click(k, confirmed)).requests == p.requests + [RequestOf(p.id, k)]
    ensures Step(p, Click(Restore, confirmed)) == Step(p, Click(Restore, !confirmed))
  {
  }

  /** Only the owner can start a call, and never a second one while the first is outstanding. */
  lemma OnlyOwnerActs(p: Page, k: Lifecycle, confirmed: bool)
    requires Valid(p) && p.product.Some?
    requires !DetailOwner(p.user, p.product.value.createdBy) || p.deleting
    ensures Step(p, Click(k, confirmed)) == p
  {
  }

  /** However the call ends, `deleting` is cleared; success alerts and goes home, failure alerts the server's message or the fallback. */
  lemma SettleOutcome(p: Page, outcome: Reply<()>)
    requires Valid(p) && p.deleting
    ensures var q := Step(p, Settle(outcome));
      && !q.deleting && q.pending.None? && q.requests == p.requests
      && (outcome.Ok? ==>
            q.alerts == p.alerts + [SuccessAlert(p.pending.value)] && q.location == Some(Navigate("/", None)))
      && (outcome.Fail? ==>
            q.alerts == p.alerts + [FailureText(outcome, FailureFallback(p.pending.value))] && q.location == p.location)
  {
  }

  function Run(p: Page, events: seq<Event>): (q: Page)
    requires Valid(p)
    ensures Valid(q)
    decreases |events|
  {
    if events == [] then p else Run(Step(p, events[0]), events[1..])
  }

  /** The settlements in a run that end an outstanding call; one that arrives with no call outstanding is not counted. */
  function Settlements(p: Page, events: seq<Event>): nat
    requires Valid(p)
    decreases |events|
  {
    if events == [] then 0
    else (if events[0].Settle? && p.deleting then 1 else 0) + Settlements(Step(p, events[0]), events[1..])
  }

  /**
   * Calls are made one at a time: the calls made, less the outstanding ones
   * settled, are exactly the change in whether one is outstanding, so never
   * more than one, however the buttons are clicked.
   */
  lemma {:induction false} OneCallAtATime(p: Page, events: seq<Event>)
    requires Valid(p)
    ensures var q := Run(p, events);
      |q.requests| + (if q.deleting then 0 else 1) ==
        |p.requests| + (if p.deleting then 0 else 1) + Settlements(p, events)
    decreases |events|
  {
    if events != [] {
      OneCallAtATime(Step(p, events[0]), events[1..]);
    }
  }

  /** The page with its state in fields. */
  class ProductDetailPage {
    const id: string
    const user: Option<User>
    var product: Option<Product>
    var loading: bool
    var error: Option<string>
    var deleting: bool
    var pending: Option<Lifecycle>
    var alerts: seq<string>
    var location: Option<Navigation>
    var requests: seq<Request>

    function State(): Page
      reads this
    {
      Page(id, user, product, loading, error, deleting, pending, alerts, location, requests)
    }

    /** Mounting runs `fetchProductDetail`, which clears the error and asks for the product. */
    constructor (id: string, user: Option<User>)
      ensures State() == Mount(id, user)
    {
      this.id := id;
      this.user := user;
      product := None;
      loading := true;
      error := None;
      deleting := false;
      pending := None;
      alerts := [];
      location := None;
      requests := [GetProduct(id)];
    }

    /** The rest of `fetchProductDetail`, once the product arrives or the call fails. */
    method FetchSettled(reply: Reply<Product>)
      requires Valid(State())
      modifies this
      ensures State() == Step(old(State()), Fetched(reply))
    {
      if !loading {
        return;
      }
      match reply {
        case Ok(data) => product := Some(data);
        case Fail(m) => error := Some(Or(m, LoadFallback));
      }
      loading := false;
    }

    /** The synchronous part of a lifecycle handler: the confirmation, `setDeleting(true)` and the call. */
    method Begin(k: Lifecycle, confirmed: bool)
      requires Valid(State())
      modifies this
      ensures State() == Step(old(State()), Click(k, confirmed))
    {
      if !Enabled(State(), k) || (NeedsConfirmation(k) && !confirmed) {
        return;
      }
      deleting := true;
      pending := Some(k);
      requests := requests + [RequestOf(id, k)];
    }

    method HandleSoftDelete(confirmed: bool)
      requires Valid(State())
      modifies this
      ensures State() == Step(old(State()), Click(SoftDelete, confirmed))
    {
      Begin(SoftDelete, confirmed);
    }

    method HandleForceDelete(confirmed: bool)
      requires Valid(State())
      modifies this
      ensures State() == Step(old(State()), Click(ForceDelete, confirmed))
    {
      Begin(ForceDelete, confirmed);
    }

    /** Restore asks nothing, so its handler takes no answer. */
    method HandleRestore()
      requires Valid(State())
      modifies this
      ensures State() == Step(old(State()), Click(Restore, true))
    {
      Begin(Restore, true);
    }

    /** The call settles: the alert, the navigation on success, and the `finally` that clears `deleting`. */
    method Settled(outcome: Reply<()>)
      requires Valid(State())
      modifies this
      ensures State() == Step(old(State()), Settle(outcome))
    {
      if pending.None? {
        return;
      }
      var k := pending.value;
      match outcome {
        case Ok(_) =>
          alerts := alerts + [SuccessAlert(k)];
          location := Some(Navigate("/", None));
        case Fail(m) =>
          alerts := alerts + [Or(m, FailureFallback(k))];
      }
      deleting := false;
      pending := None;
    }

    method EditProduct()
      requires Valid(State())
      modifies this
      ensures State() == Step(old(State()), Edit)
    {
      if location.None? && product.Some? {
        location := Some(Navigate("/edit-product/" + product.value._id, None));
      }
    }
  }
}
