/**
 * The paginated product list with a search box and a bin view. It fetches
 * five products at a time whenever the page, the search text or the view
 * changes, offers the owner of each product Edit and Delete (or, in the bin,
 * Restore and Delete Forever), asks for confirmation before either delete,
 * and refetches after every successful lifecycle call.
 *
 * Three pieces come in two builds: the code as it is written (`AsWritten`)
 * and with its defects corrected (`Corrected`). They are the request URL
 * (`QueryAsWritten` and `Query`), the Next button's guard
 * (`NextEnabledAsWritten` and `NextEnabled`) and the owner test
 * (`ListOwnerAsWritten` and `ListOwner`). A page carries its build, and
 * `Fetch`, `Step`, `ListActions` and the class take these three pieces
 * from it, so the `AsWritten` page is the page the source renders.
 */
module ProductList {
  import opened Platform
  import opened Backend
  import opened QueryString

  const Limit := "5"
  const TrashedToast := "Product moved to trash"
  const DeletedToast := "Product permanently deleted"
  const RestoredToast := "Product restored"
  const DeleteFallback := "Delete failed"
  const RestoreFallback := "Restore failed"

  /** A boolean inside a template literal. */
  function BoolText(b: bool): string {
    if b then "true" else "false"
  }

  // ----- the request URL -----

  /** The URL exactly as the template literal writes it: the search text goes in unescaped. */
  function QueryAsWritten(page: nat, search: string, showDeleted: bool): string {
    "/products?page=" + NatToString(page) + "&limit=" + Limit + "&search=" + search + "&isDeleted=" + BoolText(showDeleted)
  }

  /** The URL with the search text escaped, as the rest of this model requests it. */
  function Query(page: nat, search: string, showDeleted: bool): string {
    QueryAsWritten(page, Encode(search), showDeleted)
  }

  /** The four parameters of the URL, given the text of each value. */
  function UrlPairs(n: string, v: string, b: string): seq<(string, string)> {
    [("page", n), ("limit", Limit), ("search", v), ("isDeleted", b)]
  }

  /** The four parameters the list means to send. */
  function Intended(page: nat, search: string, showDeleted: bool): seq<(string, string)> {
    UrlPairs(NatToString(page), search, BoolText(showDeleted))
  }

  /** The template is the path, `?`, and the four pairs joined with `&`. */
  lemma UrlLayout(n: string, v: string, b: string)
    ensures "/products?page=" + n + "&limit=" + Limit + "&search=" + v + "&isDeleted=" + b ==
            "/products" + "?" + Join(UrlPairs(n, v, b))
  {
    var pairs := UrlPairs(n, v, b);
    var j3 := "isDeleted=" + b;
    var j2 := "search=" + v + "&" + j3;
    var j1 := "limit=5&" + j2;
    var j0 := "page=" + n + "&" + j1;
    assert Join(pairs[3..]) == j3;
    assert Join(pairs[2..]) == j2;
    assert Join(pairs[1..]) == j1;
    assert Join(pairs) == j0;
    var a := "/products?page=" + n;
    var l3 := a + "&limit=" + Limit + "&search=" + v;
    var l5 := l3 + "&isDeleted=" + b;
    ConcatAssoc(a, "&limit=", Limit);
    assert "&limit=" + Limit == "&limit=5";
    ConcatAssoc(a, "&limit=5", "&search=");
    assert "&limit=5" + "&search=" == "&limit=5&" + "search=";
    ConcatAssoc(a, "&limit=5&", "search=");
    ConcatAssoc(a + "&limit=5&", "search=", v);
    assert "&isDeleted=" == "&" + "isDeleted=";
    ConcatAssoc(l3, "&", "isDeleted=");
    ConcatAssoc(l3 + "&", "isDeleted=", b);
    ConcatAssoc(a + "&limit=5&", "search=" + v, "&");
    ConcatAssoc(a + "&limit=5&", "search=" + v + "&", j3);
    assert "&limit=5&" == "&" + "limit=5&";
    ConcatAssoc(a, "&", "limit=5&");
    ConcatAssoc(a + "&", "limit=5&", j2);
    assert "/products?page=" == "/products?" + "page=";
    ConcatAssoc("/products?", "page=", n);
    ConcatAssoc("/products?", "page=" + n, "&");
    ConcatAssoc("/products?", "page=" + n + "&", j1);
    assert "/products?" == "/products" + "?";
  }

  /** The page number and the flag decode to themselves; only the search value needs decoding. */
  lemma DecodeUrlPairs(n: string, v: string, b: string)
    requires Literal(n) && Literal(b)
    ensures DecodePairs(UrlPairs(n, v, b)) == UrlPairs(n, Decode(v), b)
  {
    assert Literal("page") && Literal("limit") && Literal("search") && Literal("isDeleted") && Literal(Limit);
    DecodePairsOneValue(UrlPairs(n, v, b), 2);
  }

  /** The path of the URL holds neither `?` nor `#`. */
  lemma PathIsBare()
    ensures forall i :: 0 <= i < |"/products"| ==> "/products"[i] != '?' && "/products"[i] != '#'
  {
  }

  /** The page number and the flag hold no character the query syntax or decoding gives a meaning to. */
  lemma NumberAndFlagAreLiteral(page: nat, showDeleted: bool)
    ensures Plain(NatToString(page)) && Literal(NatToString(page))
    ensures Plain(BoolText(showDeleted)) && Literal(BoolText(showDeleted))
  {
    var n := NatToString(page);
    assert forall i :: 0 <= i < |n| ==> IsDigit(n[i]);
  }

  /** With plain values, all four pairs are plain. */
  lemma UrlPairsPlain(n: string, v: string, b: string)
    requires Plain(n) && Plain(v) && Plain(b)
    ensures AllPlain(UrlPairs(n, v, b))
  {
    assert Plain("page") && Plain("limit") && Plain("search") && Plain("isDeleted") && Plain(Limit);
  }

  /** The server reads the escaped URL as exactly the four intended parameters, whatever the search text. */
  lemma QueryRoundTrip(page: nat, search: string, showDeleted: bool)
    ensures ParseQuery(Query(page, search, showDeleted)) == Intended(page, search, showDeleted)
  {
    var n, e, b := NatToString(page), Encode(search), BoolText(showDeleted);
    var pairs := UrlPairs(n, e, b);
    UrlLayout(n, e, b);
    NumberAndFlagAreLiteral(page, showDeleted);
    UrlPairsPlain(n, e, b);
    PathIsBare();
    ParseUrl("/products", pairs);
    DecodeUrlPairs(n, e, b);
    DecodeEncode(search);
  }

  /** As written, a `#` in the search ends the URL: the server never sees `isDeleted`, and the bin view lists active products. */
  lemma HashDropsBinFlag()
    ensures ParseQuery(QueryAsWritten(1, "#", true)) == [("page", "1"), ("limit", "5"), ("search", "")]
    ensures ParseQuery(QueryAsWritten(1, "#", true)) != Intended(1, "#", true)
  {
    HashCutsUrl();
    HashPrefixPairs();
  }

  lemma HashCutsUrl()
    ensures ParseQuery(QueryAsWritten(1, "#", true)) == ParseQuery("/products?page=1&limit=5&search=")
  {
    var before := "/products?page=1&limit=5&search=";
    assert NatToString(1) == "1";
    assert QueryAsWritten(1, "#", true) == before + "#" + "&isDeleted=true";
    FragmentIgnored(before, "&isDeleted=true");
  }

  lemma HashPrefixPairs()
    ensures ParseQuery("/products?page=1&limit=5&search=") == [("page", "1"), ("limit", "5"), ("search", "")]
  {
    var pairs := [("page", "1"), ("limit", "5"), ("search", "")];
    assert Join(pairs[2..]) == "search=";
    assert Join(pairs[1..]) == "limit=5&search=";
    assert "/products?page=1&limit=5&search=" == "/products" + "?" + Join(pairs);
    ParseLiteralUrl("/products", pairs);
  }

  /** As written, a search for `x&isDeleted=true` in the active view adds a second `isDeleted` that asks for the bin. */
  lemma AmpersandInjectsParameter()
    ensures ParseQuery(QueryAsWritten(1, "x&isDeleted=true", false)) ==
              [("page", "1"), ("limit", "5"), ("search", "x"), ("isDeleted", "true"), ("isDeleted", "false")]
  {
    assert "x&isDeleted=true" == "x" + "&" + "isDeleted" + "=" + "true";
    assert NatToString(1) == "1";
    assert BoolText(false) == "false";
    InjectedLayout("1", "x", "true", "false");
    InjectedPairs();
  }

  /** A search value holding `&isDeleted=` reads as one more pair. */
  lemma InjectedLayout(n: string, x: string, t: string, b: string)
    ensures var v := x + "&" + "isDeleted" + "=" + t;
      "/products?page=" + n + "&limit=" + Limit + "&search=" + v + "&isDeleted=" + b ==
        "/products" + "?" + Join([("page", n), ("limit", Limit), ("search", x), ("isDeleted", t), ("isDeleted", b)])
  {
    var v := x + "&" + "isDeleted" + "=" + t;
    UrlLayout(n, v, b);
    var s1 := [("search", v)] + [("isDeleted", b)];
    var s2 := [("search", x), ("isDeleted", t)] + [("isDeleted", b)];
    JoinSplice("search", x, "isDeleted", t, [("isDeleted", b)]);
    JoinCons("limit", Limit, s1);
    JoinCons("limit", Limit, s2);
    JoinCons("page", n, [("limit", Limit)] + s1);
    JoinCons("page", n, [("limit", Limit)] + s2);
    assert UrlPairs(n, v, b) == [("page", n)] + ([("limit", Limit)] + s1);
    assert [("page", n), ("limit", Limit), ("search", x), ("isDeleted", t), ("isDeleted", b)] ==
             [("page", n)] + ([("limit", Limit)] + s2);
  }

  lemma InjectedPairs()
    ensures var pairs := [("page", "1"), ("limit", "5"), ("search", "x"), ("isDeleted", "true"), ("isDeleted", "false")];
      ParseQuery("/products" + "?" + Join(pairs)) == pairs
  {
    var pairs := [("page", "1"), ("limit", "5"), ("search", "x"), ("isDeleted", "true"), ("isDeleted", "false")];
    ParseLiteralUrl("/products", pairs);
  }

  // ----- pagination -----

  /** `disabled={page === totalPages}` on Next, as written. */
  predicate NextEnabledAsWritten(page: int, totalPages: int) {
    page != totalPages
  }

  /** Next is offered only before the last page. */
  predicate NextEnabled(page: int, totalPages: int) {
    page < totalPages
  }

  // ----- ownership and actions -----

  /** `user?.id === product.createdBy._id`: strict equality, under which two missing ids are equal. */
  function ListOwnerAsWritten(user: Option<User>, createdBy: Creator): bool
    requires !createdBy.NoCreator?  // reading `_id` of a missing creator throws
  {
    var mine := if user.Some? then user.value.id else None;
    var theirs := if createdBy.Populated? then createdBy._id else None;  // an id string has no `_id`
    mine == theirs
  }

  /** The owner test the rest of the model uses: both ids present and equal. */
  function ListOwner(user: Option<User>, createdBy: Creator): bool
    requires !createdBy.NoCreator?
  {
    var mine := if user.Some? then user.value.id else None;
    mine.Some? && ListOwnerAsWritten(user, createdBy)
  }

  /** As written, a visitor with no user is the owner of any product whose creator was not populated. */
  lemma AnonymousOwnerAsWritten(ref: string)
    ensures ListOwnerAsWritten(None, CreatorId(ref))
    ensures !ListOwner(None, CreatorId(ref))
  {
  }

  /** The owner is exactly the signed-in user whose `id` is the populated creator's `_id`. */
  lemma OwnerIffSameId(user: Option<User>, createdBy: Creator)
    requires !createdBy.NoCreator?
    ensures ListOwner(user, createdBy) <==>
              user.Some? && user.value.id.Some? && createdBy.Populated? && createdBy._id == user.value.id
  {
  }

  // ----- the two builds -----

  /** The code as it is written, or with the three defects above corrected. */
  datatype Build = AsWritten | Corrected

  /** The URL a page of this build requests. */
  function Url(build: Build, page: nat, search: string, showDeleted: bool): string {
    match build
    case AsWritten => QueryAsWritten(page, search, showDeleted)
    case Corrected => Query(page, search, showDeleted)
  }

  /** Whether this build's Next button is enabled. */
  predicate NextOffered(build: Build, page: int, totalPages: int) {
    match build
    case AsWritten => NextEnabledAsWritten(page, totalPages)
    case Corrected => NextEnabled(page, totalPages)
  }

  /** This build's owner test. */
  function Owner(build: Build, user: Option<User>, createdBy: Creator): bool
    requires !createdBy.NoCreator?
  {
    match build
    case AsWritten => ListOwnerAsWritten(user, createdBy)
    case Corrected => ListOwner(user, createdBy)
  }

  /** The buttons on a product's card: none for others; Edit and Delete in the list; Restore and Delete Forever in the bin. */
  function ListActions(build: Build, user: Option<User>, product: Product, showDeleted: bool): (r: set<Action>)
    requires !product.createdBy.NoCreator?
    ensures !Owner(build, user, product.createdBy) ==> r == {}
    ensures Owner(build, user, product.createdBy) && !showDeleted ==> r == {OfferEdit, OfferTrash}
    ensures Owner(build, user, product.createdBy) && showDeleted ==> r == {OfferRestore, OfferDeleteForever}
  {
    if !Owner(build, user, product.createdBy) then {}
    else if !showDeleted then {OfferEdit, OfferTrash}
    else {OfferRestore, OfferDeleteForever}
  }

  /** As written, a visitor with no user gets the owner's buttons on any product whose creator was not populated. */
  lemma AnonymousGetsOwnerButtons(product: Product, showDeleted: bool)
    requires product.createdBy.CreatorId?
    ensures ListActions(AsWritten, None, product, showDeleted) ==
              if showDeleted then {OfferRestore, OfferDeleteForever} else {OfferEdit, OfferTrash}
    ensures ListActions(Corrected, None, product, showDeleted) == {}
  {
    AnonymousOwnerAsWritten(product.createdBy.ref);
  }

  // ----- the page -----

  /** A successful listing: `data.data.products` and `data.data.totalPages`. */
  datatype Listing = Listing(products: seq<Product>, totalPages: int)

  datatype Page = Page(
    build: Build,
    user: Option<User>,
    products: seq<Product>,
    page: int,
    totalPages: int,
    search: string,
    showDeleted: bool,
    toasts: seq<string>,
    requests: seq<Request>)

  predicate Valid(p: Page) {
    p.page >= 1
  }

  /** The "+ Add Product" link. */
  predicate AddLinkShown(p: Page) {
    !p.showDeleted
  }

  /** The bin view offers no way to create or edit a product. */
  lemma BinOffersNoCreation(p: Page, product: Product)
    requires p.showDeleted && !product.createdBy.NoCreator?
    ensures !AddLinkShown(p) && OfferEdit !in ListActions(p.build, p.user, product, p.showDeleted)
  {
  }

  /** Some listed product with this `_id` shows this button on its card. */
  predicate Offered(p: Page, id: string, action: Action) {
    exists i :: 0 <= i < |p.products| && p.products[i]._id == id && !p.products[i].createdBy.NoCreator?
      && action in ListActions(p.build, p.user, p.products[i], p.showDeleted)
  }

  /** `fetchProducts`'s request. */
  function Fetch(p: Page): (q: Page)
    requires Valid(p)
    ensures Valid(q)
    ensures q.requests == p.requests + [GetUrl(Url(p.build, p.page, p.search, p.showDeleted))]
  {
    p.(requests := p.requests + [GetUrl(Url(p.build, p.page, p.search, p.showDeleted))])
  }

  /** A corrected page's fetch is read by the server as exactly the page, the limit, the search and the view. */
  lemma CorrectedFetchReadsAsIntended(p: Page)
    requires Valid(p) && p.build == Corrected
    ensures var q := Fetch(p);
      ParseQuery(q.requests[|p.requests|].url) == Intended(p.page, p.search, p.showDeleted)
  {
    QueryRoundTrip(p.page, p.search, p.showDeleted);
  }

  /** The page after mount, once its effect has asked for the first page of active products. */
  function Mount(build: Build, user: Option<User>): (p: Page)
    ensures Valid(p) && p.build == build && p.page == 1 && p.totalPages == 1 && p.search == "" && !p.showDeleted
    ensures p.requests == [GetUrl(QueryAsWritten(1, "", false))]
  {
    MountUrl(build);
    Fetch(Page(build, user, [], 1, 1, "", false, [], []))
  }

  /** Both builds ask for the same first URL: the empty search needs no escaping. */
  lemma MountUrl(build: Build)
    ensures Url(build, 1, "", false) == QueryAsWritten(1, "", false)
  {
    assert Encode("") == "";
  }

  datatype Event =
    | TypeSearch(value: string)
    | ToggleBin
    | Prev
    | Next
    | Fetched(reply: Reply<Listing>)
    | Delete(id: string, confirmed: bool, outcome: Reply<()>)
    | ForceDelete(id: string, confirmed: bool, outcome: Reply<()>)
    | Restore(id: string, outcome: Reply<()>)

  /** A lifecycle call: the request, then a toast and a refetch on success, or the server's error (or the fallback) on failure. */
  function LifecycleCall(p: Page, request: Request, outcome: Reply<()>, success: string, fallback: string): (q: Page)
    requires Valid(p)
    ensures Valid(q)
    ensures q.build == p.build && q.user == p.user && q.products == p.products
    ensures q.page == p.page && q.totalPages == p.totalPages && q.search == p.search && q.showDeleted == p.showDeleted
    ensures outcome.Ok? ==>
              q.requests == p.requests + [request, GetUrl(Url(p.build, p.page, p.search, p.showDeleted))]
              && q.toasts == p.toasts + [success]
    ensures outcome.Fail? ==>
              q.requests == p.requests + [request] && q.toasts == p.toasts + [FailureText(outcome, fallback)]
  {
    var p' := p.(requests := p.requests + [request]);
    match outcome
    case Ok(_) => Fetch(p'.(toasts := p.toasts + [success]))
    case Fail(m) => p'.(toasts := p.toasts + [Or(m, fallback)])
  }

  function Step(p: Page, e: Event): (q: Page)
    requires Valid(p)
    ensures Valid(q)
    ensures q.build == p.build && q.user == p.user && p.requests <= q.requests
  {
    match e
    case TypeSearch(v) => if v == p.search then p else Fetch(p.(search := v))
    case ToggleBin => Fetch(p.(showDeleted := !p.showDeleted, page := 1))
    case Prev => if p.page == 1 then p else Fetch(p.(page := p.page - 1))
    case Next => if !NextOffered(p.build, p.page, p.totalPages) then p else Fetch(p.(page := p.page + 1))
    case Fetched(reply) =>
      if reply.Ok? then p.(products := reply.value.products, totalPages := reply.value.totalPages) else p
    case Delete(id, confirmed, outcome) =>
      if !Offered(p, id, OfferTrash) || !confirmed then p
      else LifecycleCall(p, DeleteProduct(id), outcome, TrashedToast, DeleteFallback)
    case ForceDelete(id, confirmed, outcome) =>
      if !Offered(p, id, OfferDeleteForever) || !confirmed then p
      else LifecycleCall(p, ForceDeleteProduct(id), outcome, DeletedToast, DeleteFallback)
    case Restore(id, outcome) =>
      if !Offered(p, id, OfferRestore) then p
      else LifecycleCall(p, RestoreProduct(id), outcome, RestoredToast, RestoreFallback)
  }

  /** Toggling the view flips it, goes back to page 1 and fetches that page of the other view. */
  lemma ToggleBinResetsPage(p: Page)
    requires Valid(p)
    ensures var q := Step(p, ToggleBin);
      && q.showDeleted == !p.showDeleted && q.page == 1 && q.search == p.search
      && q.requests == p.requests + [GetUrl(Url(p.build, 1, p.search, !p.showDeleted))]
  {
  }

  /** Neither delete asks the server anything unless it is confirmed. */
  lemma DeletesNeedConfirmation(p: Page, id: string, outcome: Reply<()>)
    requires Valid(p)
    ensures Step(p, Delete(id, false, outcome)) == p
    ensures Step(p, ForceDelete(id, false, outcome)) == p
  {
  }

  /**
   * A lifecycle request is sent only for a listed product whose card shows
   * that button: so none from the other view's buttons, and none for a
   * product of somebody else.
   */
  lemma OnlyRenderedButtonsAct(p: Page, id: string, confirmed: bool, outcome: Reply<()>)
    requires Valid(p)
    ensures Step(p, Delete(id, confirmed, outcome)).requests != p.requests ==> Offered(p, id, OfferTrash)
    ensures Step(p, ForceDelete(id, confirmed, outcome)).requests != p.requests ==> Offered(p, id, OfferDeleteForever)
    ensures Step(p, Restore(id, outcome)).requests != p.requests ==> Offered(p, id, OfferRestore)
  {
  }

  /** The active view never restores or deletes forever; the bin never moves to the bin. */
  lemma ViewGatesLifecycle(p: Page, id: string, confirmed: bool, outcome: Reply<()>)
    requires Valid(p)
    ensures p.showDeleted ==> Step(p, Delete(id, confirmed, outcome)) == p
    ensures !p.showDeleted ==>
              Step(p, ForceDelete(id, confirmed, outcome)) == p && Step(p, Restore(id, outcome)) == p
  {
    if p.showDeleted {
      NotOffered(p, id, OfferTrash);
    } else {
      NotOffered(p, id, OfferDeleteForever);
      NotOffered(p, id, OfferRestore);
    }
  }

  /** A button that no card of this view shows is offered for no product. */
  lemma NotOffered(p: Page, id: string, action: Action)
    requires p.showDeleted ==> action !in {OfferRestore, OfferDeleteForever}
    requires !p.showDeleted ==> action !in {OfferEdit, OfferTrash}
    ensures !Offered(p, id, action)
  {
    forall i | 0 <= i < |p.products| && !p.products[i].createdBy.NoCreator?
      ensures action !in ListActions(p.build, p.user, p.products[i], p.showDeleted)
    {
    }
  }

  /** A confirmed delete from a shown button sends the request; success refetches the same page, failure reports the server's error or the fallback. */
  lemma DeleteOutcome(p: Page, id: string, outcome: Reply<()>)
    requires Valid(p) && Offered(p, id, OfferTrash)
    ensures var q := Step(p, Delete(id, true, outcome));
      && (outcome.Ok? ==>
            q.requests == p.requests + [DeleteProduct(id), GetUrl(Url(p.build, p.page, p.search, p.showDeleted))]
            && q.toasts == p.toasts + [TrashedToast])
      && (outcome.Fail? ==>
            q.requests == p.requests + [DeleteProduct(id)]
            && q.toasts == p.toasts + [FailureText(outcome, DeleteFallback)])
  {
  }

  /** Restore from a shown button asks for no confirmation and otherwise behaves like the deletes. */
  lemma RestoreOutcome(p: Page, id: string, outcome: Reply<()>)
    requires Valid(p) && Offered(p, id, OfferRestore)
    ensures var q := Step(p, Restore(id, outcome));
      && (outcome.Ok? ==>
            q.requests == p.requests + [RestoreProduct(id), GetUrl(Url(p.build, p.page, p.search, p.showDeleted))]
            && q.toasts == p.toasts + [RestoredToast])
      && (outcome.Fail? ==>
            q.requests == p.requests + [RestoreProduct(id)]
            && q.toasts == p.toasts + [FailureText(outcome, RestoreFallback)])
  {
  }

  /**
   * As written, Next past the last page is still enabled (on an empty result,
   * or after a refetch shrank the list) and leads one page further out, where
   * the corrected guard does nothing.
   */
  lemma NextAsWrittenOvershoots(p: Page)
    requires Valid(p) && p.build == AsWritten && p.page > p.totalPages
    ensures var q := Step(p, Next);
      && q.page == p.page + 1 > p.totalPages
      && q.requests == p.requests + [GetUrl(QueryAsWritten(p.page + 1, p.search, p.showDeleted))]
    ensures Step(p.(build := Corrected), Next) == p.(build := Corrected)
  {
  }

  /**
   * One click: Prev does nothing on page 1 and otherwise fetches the page
   * before; Next does nothing when the build's guard disables it and
   * otherwise fetches the page after.
   */
  lemma PagingSteps(p: Page)
    requires Valid(p)
    ensures p.page == 1 ==> Step(p, Prev) == p
    ensures p.page != 1 ==>
              && Step(p, Prev).page == p.page - 1
              && Step(p, Prev).requests == p.requests + [GetUrl(Url(p.build, p.page - 1, p.search, p.showDeleted))]
    ensures !NextOffered(p.build, p.page, p.totalPages) ==> Step(p, Next) == p
    ensures NextOffered(p.build, p.page, p.totalPages) ==>
              && Step(p, Next).page == p.page + 1
              && Step(p, Next).requests == p.requests + [GetUrl(Url(p.build, p.page + 1, p.search, p.showDeleted))]
  {
  }

  predicate IsPaging(e: Event) {
    e.Prev? || e.Next?
  }

  function Run(p: Page, events: seq<Event>): (q: Page)
    requires Valid(p)
    ensures Valid(q)
    decreases |events|
  {
    if events == [] then p else Run(Step(p, events[0]), events[1..])
  }

  /**
   * With the corrected guard, any run of Prev and Next clicks stays between
   * page 1 and the furthest of the start page and the last page, and each
   * click that moves fetches the page it moves to.
   */
  lemma {:induction false} PagingStaysInRange(p: Page, events: seq<Event>)
    requires Valid(p) && p.build == Corrected
    requires forall i :: 0 <= i < |events| ==> IsPaging(events[i])
    ensures var q := Run(p, events);
      && 1 <= q.page <= (if p.page > p.totalPages then p.page else p.totalPages)
      && q.totalPages == p.totalPages
      && |q.requests| - |p.requests| <= |events|
    decreases |events|
  {
    if events != [] {
      PagingStaysInRange(Step(p, events[0]), events[1..]);
    }
  }

  /** The page with its state in fields. */
  class ProductListPage {
    const build: Build
    const user: Option<User>
    var products: seq<Product>
    var page: int
    var totalPages: int
    var search: string
    var showDeleted: bool
    var toasts: seq<string>
    var requests: seq<Request>

    function State(): Page
      reads this
    {
      Page(build, user, products, page, totalPages, search, showDeleted, toasts, requests)
    }

    constructor (build: Build, user: Option<User>)
      ensures State() == Mount(build, user)
    {
      this.build := build;
      this.user := user;
      products := [];
      page := 1;
      totalPages := 1;
      search := "";
      showDeleted := false;
      toasts := [];
      requests := [GetUrl(Url(build, 1, "", false))];
    }

    /** The request of `fetchProducts`, made by the effect whenever the page, the search or the view changes. */
    method FetchProducts()
      requires Valid(State())
      modifies this
      ensures State() == Fetch(old(State()))
    {
      requests := requests + [GetUrl(Url(build, page, search, showDeleted))];
    }

    method OnSearchChange(value: string)
      requires Valid(State())
      modifies this
      ensures State() == Step(old(State()), TypeSearch(value))
    {
      if value != search {
        search := value;
        FetchProducts();
      }
    }

    method ToggleBin()
      requires Valid(State())
      modifies this
      ensures State() == Step(old(State()), Event.ToggleBin)
    {
      showDeleted := !showDeleted;
      page := 1;
      FetchProducts();
    }

    method Prev()
      requires Valid(State())
      modifies this
      ensures State() == Step(old(State()), Event.Prev)
    {
      if page != 1 {
        page := page - 1;
        FetchProducts();
      }
    }

    method Next()
      requires Valid(State())
      modifies this
      ensures State() == Step(old(State()), Event.Next)
    {
      if NextOffered(build, page, totalPages) {
        page := page + 1;
        FetchProducts();
      }
    }

    method FetchSettled(reply: Reply<Listing>)
      requires Valid(State())
      modifies this
      ensures State() == Step(old(State()), Fetched(reply))
    {
      if reply.Ok? {
        products := reply.value.products;
        totalPages := reply.value.totalPages;
      }
    }

    method Lifecycle(request: Request, outcome: Reply<()>, success: string, fallback: string)
      requires Valid(State())
      modifies this
      ensures State() == LifecycleCall(old(State()), request, outcome, success, fallback)
    {
      requests := requests + [request];
      match outcome {
        case Ok(_) =>
          toasts := toasts + [success];
          FetchProducts();
        case Fail(m) =>
          toasts := toasts + [Or(m, fallback)];
      }
    }

    method HandleDelete(id: string, confirmed: bool, outcome: Reply<()>)
      requires Valid(State())
      modifies this
      ensures State() == Step(old(State()), Delete(id, confirmed, outcome))
    {
      if !Offered(State(), id, OfferTrash) || !confirmed {
        return;
      }
      Lifecycle(DeleteProduct(id), outcome, TrashedToast, DeleteFallback);
    }

    method HandleForceDelete(id: string, confirmed: bool, outcome: Reply<()>)
      requires Valid(State())
      modifies this
      ensures State() == Step(old(State()), ForceDelete(id, confirmed, outcome))
    {
      if !Offered(State(), id, OfferDeleteForever) || !confirmed {
        return;
      }
      Lifecycle(ForceDeleteProduct(id), outcome, DeletedToast, DeleteFallback);
    }

    method HandleRestore(id: string, outcome: Reply<()>)
      requires Valid(State())
      modifies this
      ensures State() == Step(old(State()), Restore(id, outcome))
    {
      if !Offered(State(), id, OfferRestore) {
        return;
      }
      Lifecycle(RestoreProduct(id), outcome, RestoredToast, RestoreFallback);
    }
  }
}
