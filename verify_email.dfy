/**
 * The email verification page reached from the link in the verification
 * email: it reads `token` from the query string and, from an effect that
 * depends on the token, posts it to `/auth/verify-email` once. A ref latch
 * (`processed`) keeps a second run of the effect (the development double
 * mount, or a new token) from posting again. Without a token the page shows
 * an error and posts nothing.
 *
 * `Page` is the page's state and `Step` its reaction to one event; the class
 * `VerifyEmailPage` keeps the same state in fields.
 */
module VerifyEmail {
  import opened Platform
  import opened Backend

  const NoTokenMessage := "No verification token provided."
  const FailureFallback := "Verification failed"

  datatype Status = Verifying | Success | Failed

  datatype Page = Page(
    token: Option<string>,     // `searchParams.get("token")`
    status: Status,
    message: Option<string>,   // `res.data.data` may be undefined
    processed: bool,           // the ref latch
    inFlight: bool,            // the post has been made and has not settled
    requests: seq<Request>)

  /** The page before its effect has run. */
  function Mount(token: Option<string>): (p: Page)
    ensures Valid(p) && p.status == Verifying && p.requests == []
  {
    Page(token, Verifying, Some(""), false, false, [])
  }

  /** Only verification posts are made, each with a non-empty token, and the latch records the first. */
  predicate Valid(p: Page) {
    && |p.requests| <= 1
    && (p.processed <==> |p.requests| == 1)
    && (p.inFlight ==> p.processed)
    && (forall i :: 0 <= i < |p.requests| ==>
          p.requests[i].VerifyEmailToken? && p.requests[i].token != "")
  }

  datatype Event =
    | RunEffect                      // the effect runs (mount, or a re-run)
    | TokenChanged(t: Option<string>)  // the query string changes; the effect runs again
    | Settle(reply: Reply<Option<string>>)  // the post resolves with `res.data.data`, or rejects

  /** The effect body: no token is an error; a latched page does nothing; else the post is made. */
  function Effect(p: Page): (q: Page)
    requires Valid(p)
    ensures Valid(q)
    ensures !Truthy(p.token) ==> q == p.(status := Failed, message := Some(NoTokenMessage))
    ensures Truthy(p.token) && p.processed ==> q == p
    ensures Truthy(p.token) && !p.processed ==>
              q == p.(processed := true, inFlight := true, requests := [VerifyEmailToken(p.token.value)])
  {
    if !Truthy(p.token) then p.(status := Failed, message := Some(NoTokenMessage))
    else if p.processed then p
    else p.(processed := true, inFlight := true, requests := p.requests + [VerifyEmailToken(p.token.value)])
  }

  function Step(p: Page, e: Event): (q: Page)
    requires Valid(p)
    ensures Valid(q)
    ensures p.requests <= q.requests
    ensures p.processed ==> q.requests == p.requests
    ensures q.token == (if e.TokenChanged? then e.t else p.token)
    ensures p.requests == [] && q.requests != [] ==> q.token == Some(q.requests[0].token)
  {
    match e
    case RunEffect => Effect(p)
    case TokenChanged(t) => Effect(p.(token := t))
    case Settle(reply) =>
      if !p.inFlight then p
      else match reply
        case Ok(data) => p.(inFlight := false, status := Success, message := data)
        case Fail(m) => p.(inFlight := false, status := Failed, message := Some(Or(m, FailureFallback)))
  }

  function Run(p: Page, events: seq<Event>): (q: Page)
    requires Valid(p)
    ensures Valid(q)
    ensures p.requests <= q.requests
    decreases |events|
  {
    if events == [] then p else Run(Step(p, events[0]), events[1..])
  }

  /** The token was in the URL: at mount, or after a change of the query string. */
  predicate FromUrl(x: string, token: Option<string>, events: seq<Event>) {
    token == Some(x) || exists i :: 0 <= i < |events| && events[i] == TokenChanged(Some(x))
  }

  /** Whatever happens after mount, at most one post is made, and it carries a non-empty token that was in the URL. */
  lemma AtMostOnePost(token: Option<string>, events: seq<Event>)
    ensures var q := Run(Mount(token), events);
      && |q.requests| <= 1
      && (q.requests != [] ==>
            && q.requests[0].VerifyEmailToken? && q.requests[0].token != ""
            && FromUrl(q.requests[0].token, token, events))
  {
    PostCarriesUrlToken(Mount(token), events);
  }

  /** A post made during a run carries the token of the page or of one of the run's query changes. */
  lemma {:induction false} PostCarriesUrlToken(p: Page, events: seq<Event>)
    requires Valid(p)
    ensures var q := Run(p, events);
      q.requests != [] ==>
        (p.requests != [] && q.requests[0] == p.requests[0]) || FromUrl(q.requests[0].token, p.token, events)
    decreases |events|
  {
    if events != [] {
      var e, rest := events[0], events[1..];
      var p1 := Step(p, e);
      var q := Run(p1, rest);
      PostCarriesUrlToken(p1, rest);
      assert q == Run(p, events);
      if q.requests != [] {
        var x := q.requests[0].token;
        if p1.requests != [] && q.requests[0] == p1.requests[0] {
          if p.requests == [] {
            assert p1.token == Some(x);
            if !e.TokenChanged? {
              assert FromUrl(x, p.token, events);
            } else {
              assert events[0] == TokenChanged(Some(x));
            }
          }
        } else {
          assert FromUrl(x, p1.token, rest);
          if p1.token == Some(x) {
            if e.TokenChanged? {
              assert events[0] == TokenChanged(Some(x));
            }
          } else {
            var i :| 0 <= i < |rest| && rest[i] == TokenChanged(Some(x));
            assert events[i + 1] == rest[i];
          }
        }
      }
    }
  }

  /** Once the post is made, later effect runs (a new token included) make no other. */
  lemma {:induction false} LatchedRunPostsNothing(p: Page, events: seq<Event>)
    requires Valid(p) && p.processed
    ensures Run(p, events).requests == p.requests
    decreases |events|
  {
    if events != [] {
      LatchedRunPostsNothing(Step(p, events[0]), events[1..]);
    }
  }

  /** The effect run twice on mount (the development double mount) posts the token once. */
  lemma DoubleMountPostsOnce(t: string)
    requires t != ""
    ensures Run(Mount(Some(t)), [RunEffect, RunEffect]).requests == [VerifyEmailToken(t)]
  {
    var p1 := Step(Mount(Some(t)), RunEffect);
    assert Run(Mount(Some(t)), [RunEffect, RunEffect]) == Run(p1, [RunEffect]);
    assert Run(p1, [RunEffect]) == Run(Step(p1, RunEffect), []);
  }

  /** What the page shows after the post settles: the server's data on success, its message or the fallback on failure. */
  lemma SettleOutcome(p: Page, reply: Reply<Option<string>>)
    requires Valid(p) && p.inFlight
    ensures var q := Step(p, Settle(reply));
      && !q.inFlight && q.requests == p.requests
      && (reply.Ok? ==> q.status == Success && q.message == reply.value)
      && (reply.Fail? ==> q.status == Failed && q.message == Some(FailureText(reply, FailureFallback)))
  {
  }

  /** The page with its state in fields. */
  class VerifyEmailPage {
    var token: Option<string>
    var status: Status
    var message: Option<string>
    var processed: bool
    var inFlight: bool
    var requests: seq<Request>

    function State(): Page
      reads this
    {
      Page(token, status, message, processed, inFlight, requests)
    }

    constructor (token: Option<string>)
      ensures State() == Mount(token)
    {
      this.token := token;
      status := Verifying;
      message := Some("");
      processed := false;
      inFlight := false;
      requests := [];
    }

    /** The effect body. */
    method RunEffect()
      requires Valid(State())
      modifies this
      ensures State() == Effect(old(State()))
    {
      if !Truthy(token) {
        status := Failed;
        message := Some(NoTokenMessage);
        return;
      }
      if processed {
        return;
      }
      processed := true;
      inFlight := true;
      requests := requests + [VerifyEmailToken(token.value)];
    }

    /** The query string gives a new token, and the effect runs again. */
    method TokenChanged(t: Option<string>)
      requires Valid(State())
      modifies this
      ensures State() == Step(old(State()), Event.TokenChanged(t))
    {
      token := t;
      RunEffect();
    }

    /** The outstanding post settles. */
    method Settle(reply: Reply<Option<string>>)
      requires Valid(State())
      modifies this
      ensures State() == Step(old(State()), Event.Settle(reply))
    {
      if !inFlight {
        return;
      }
      inFlight := false;
      match reply {
        case Ok(data) =>
          status := Success;
          message := data;
        case Fail(m) =>
          status := Failed;
          message := Some(Or(m, FailureFallback));
      }
    }
  }
}
