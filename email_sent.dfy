/**
 * The "check your email" page shown after a password reset link is
 * requested. It takes the address from the router state, sends the user back
 * to `/forgot-password` when there is none, and offers a Resend button whose
 * handler is dropped while a resend is outstanding (or without an address)
 * and clears its `sending` flag however the call ends.
 */
module EmailSent {
  import opened Platform
  import opened Backend

  datatype Page = Page(
    email: Option<string>,        // `state?.email`
    sending: bool,
    location: Option<Navigation>,
    requests: seq<Request>)

  /** Only a page with an address sends, every resend carries that address, and a page without one has navigated away. */
  predicate Valid(p: Page) {
    && (p.sending ==> Truthy(p.email))
    && (p.location.Some? <==> !Truthy(p.email))
    && (p.requests == [] || Truthy(p.email))
    && (Truthy(p.email) ==> forall i :: 0 <= i < |p.requests| ==> p.requests[i] == ForgotPassword(p.email.value))
  }

  /** The page once its effect has run: without an address it has navigated away. */
  function Mount(email: Option<string>): (p: Page)
    ensures Valid(p) && !p.sending && p.requests == []
    ensures p.location.Some? <==> !Truthy(email)
    ensures p.location.Some? ==> p.location.value == Navigate("/forgot-password", None)
  {
    Page(email, false, if Truthy(email) then None else Some(Navigate("/forgot-password", None)), [])
  }

  datatype Event = ClickResend | ResendSettled

  /** `handleResend`'s synchronous part, or the `finally` that ends it. */
  function Step(p: Page, e: Event): (q: Page)
    requires Valid(p)
    ensures Valid(q) && q.email == p.email
    ensures e.ClickResend? && !p.sending && Truthy(p.email) ==>
              q.sending && q.requests == p.requests + [ForgotPassword(p.email.value)]
    ensures e.ClickResend? && (p.sending || !Truthy(p.email)) ==> q == p
    ensures e.ResendSettled? ==> !q.sending && q.requests == p.requests
  {
    match e
    case ClickResend =>
      if p.sending || !Truthy(p.email) then p
      else p.(sending := true, requests := p.requests + [ForgotPassword(p.email.value)])
    case ResendSettled =>
      p.(sending := false)
  }

  function Run(p: Page, events: seq<Event>): (q: Page)
    requires Valid(p)
    ensures Valid(q) && q.email == p.email
    decreases |events|
  {
    if events == [] then p else Run(Step(p, events[0]), events[1..])
  }

  /** The settlements in a run that end an outstanding resend; one that arrives while idle is not counted. */
  function Settlements(p: Page, events: seq<Event>): nat
    requires Valid(p)
    decreases |events|
  {
    if events == [] then 0
    else (if events[0].ResendSettled? && p.sending then 1 else 0) + Settlements(Step(p, events[0]), events[1..])
  }

  /**
   * No burst of clicks sends more than one request per settlement: the
   * requests made, less the outstanding resends settled, are exactly the
   * change in whether one is outstanding, so never more than one.
   */
  lemma {:induction false} OneOutstanding(p: Page, events: seq<Event>)
    requires Valid(p)
    ensures var q := Run(p, events);
      |q.requests| + (if q.sending then 0 else 1) ==
        |p.requests| + (if p.sending then 0 else 1) + Settlements(p, events)
    decreases |events|
  {
    if events != [] {
      OneOutstanding(Step(p, events[0]), events[1..]);
    }
  }

  /** Without an address no event makes a request. */
  lemma NoAddressNoRequest(email: Option<string>, events: seq<Event>)
    requires !Truthy(email)
    ensures Run(Mount(email), events).requests == []
  {
  }

  /** The page with its state in fields. */
  class EmailSentPage {
    var email: Option<string>
    var sending: bool
    var location: Option<Navigation>
    var requests: seq<Request>

    function State(): Page
      reads this
    {
      Page(email, sending, location, requests)
    }

    constructor (email: Option<string>)
      ensures State() == Mount(email)
    {
      this.email := email;
      sending := false;
      requests := [];
      location := if Truthy(email) then None else Some(Navigate("/forgot-password", None));
    }

    method HandleResend()
      requires Valid(State())
      modifies this
      ensures State() == Step(old(State()), ClickResend)
    {
      if sending || !Truthy(email) {
        return;
      }
      sending := true;
      requests := requests + [ForgotPassword(email.value)];
    }

    /** The `finally` of `handleResend`. */
    method ResendSettled()
      requires Valid(State())
      modifies this
      ensures State() == Step(old(State()), Event.ResendSettled)
    {
      sending := false;
    }
  }
}
