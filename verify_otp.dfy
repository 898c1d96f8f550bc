/**
 * The OTP verification page: a six-digit code field that keeps digits only
 * and submits itself when it holds six, a single-flight `verifying` guard
 * around the `verifyOtp` call, and a countdown seeded at 179 seconds after
 * which a resend is offered; a successful resend re-seeds it at 60.
 *
 * `Page` is the page's state, `Step` its reaction to one event, and the
 * class `VerifyOtpPage` holds the same state in fields that its handlers
 * update in place, each proved to do what `Step` says. A page that has
 * navigated away is unmounted and reacts to nothing more.
 */
module VerifyOtp {
  import opened Platform
  import opened Backend

  const InitialSeconds := 179
  const ResendSeconds := 60
  const OtpLength := 6
  const InvalidOtpToast := "Please enter a valid 6-digit OTP"
  const VerifiedToast := "Email verified! Please login."

  // ----- formatTime -----

  /** `s.padStart(2, "0")` */
  function PadStart2(s: string): string {
    if |s| == 0 then "00" else if |s| == 1 then "0" + s else s
  }

  /** `formatTime(seconds)`: whole minutes, a colon, the remaining seconds, each padded to two digits. */
  function FormatTime(seconds: nat): string {
    PadStart2(NatToString(seconds / 60)) + ":" + PadStart2(NatToString(seconds % 60))
  }

  /** Reads `mm:ss` back as a number of seconds. */
  function ParseTime(t: string): Option<nat> {
    if |t| == 5 && t[2] == ':' && AllDigits(t[..2]) && AllDigits(t[3..])
    then Some(DecimalValue(t[..2]) * 60 + DecimalValue(t[3..]))
    else None
  }

  lemma PadStart2Keeps(s: string)
    requires AllDigits(s) && 1 <= |s| <= 2
    ensures |PadStart2(s)| == 2 && AllDigits(PadStart2(s))
    ensures DecimalValue(PadStart2(s)) == DecimalValue(s)
  {
    if |s| == 1 {
      DecimalValueLeadingZero(s);
    }
  }

  /** Under 100 minutes the display is exactly `mm:ss`, and it reads back as the same number of seconds. */
  lemma FormatTimeRoundTrip(seconds: nat)
    requires seconds < 6000
    ensures |FormatTime(seconds)| == 5 && FormatTime(seconds)[2] == ':'
    ensures ParseTime(FormatTime(seconds)) == Some(seconds)
  {
    var m, s := NatToString(seconds / 60), NatToString(seconds % 60);
    PadStart2Keeps(m);
    PadStart2Keeps(s);
    DecimalValueOfNatToString(seconds / 60);
    DecimalValueOfNatToString(seconds % 60);
    var t := FormatTime(seconds);
    assert t[..2] == PadStart2(m);
    assert t[3..] == PadStart2(s);
  }

  /** At any length, the display ends with a colon and two digits that give the seconds within the minute. */
  lemma FormatTimeSecondsField(seconds: nat)
    ensures var t := FormatTime(seconds);
      |t| >= 5 && t[|t| - 3] == ':' && AllDigits(t[|t| - 2..]) && DecimalValue(t[|t| - 2..]) == seconds % 60
  {
    var m, s := NatToString(seconds / 60), NatToString(seconds % 60);
    PadStart2Keeps(s);
    DecimalValueOfNatToString(seconds % 60);
    var t := FormatTime(seconds);
    assert t[|t| - 2..] == PadStart2(s);
  }

  lemma FormatTimeExamples()
    ensures FormatTime(179) == "02:59"
    ensures FormatTime(60) == "01:00"
    ensures FormatTime(0) == "00:00"
  {
    assert NatToString(59) == "59" by {
      assert NatToString(5) == "5";
    }
  }

  // ----- the code field -----

  /** `value.replace(/\D/g, "")`: the digits of `value`, in order. */
  function DigitsOnly(value: string): (r: string)
    ensures AllDigits(r) && |r| <= |value|
    ensures forall c :: IsDigit(c) ==> multiset(r)[c] == multiset(value)[c]
  {
    if value == [] then []
    else
      var rest := DigitsOnly(value[1..]);
      assert value == [value[0]] + value[1..];
      if IsDigit(value[0]) then [value[0]] + rest else rest
  }

  /** Filtering distributes over concatenation, so typing more only appends the new digits. */
  lemma {:induction false} DigitsOnlyAppend(a: string, b: string)
    ensures DigitsOnly(a + b) == DigitsOnly(a) + DigitsOnly(b)
    decreases |a|
  {
    if a == [] {
      assert a + b == b;
    } else {
      assert (a + b)[0] == a[0];
      assert (a + b)[1..] == a[1..] + b;
      DigitsOnlyAppend(a[1..], b);
    }
  }

  /** A string of digits is left as it is. */
  lemma {:induction false} DigitsOnlyKeepsDigits(value: string)
    requires AllDigits(value)
    ensures DigitsOnly(value) == value
    decreases |value|
  {
    if value != [] {
      DigitsOnlyKeepsDigits(value[1..]);
    }
  }

  // ----- the page -----

  datatype Page = Page(
    email: Option<string>,
    otp: string,
    timeLeft: int,
    canResend: bool,
    verifying: bool,
    inFlight: bool,               // a verifyOtp call has been made and has not settled
    location: Option<Navigation>, // set once the page navigates away
    toasts: seq<string>,
    requests: seq<Request>)

  /** The calls made so far all carried six digits. */
  predicate SentCodesWellFormed(requests: seq<Request>) {
    forall i :: 0 <= i < |requests| && requests[i].VerifyOtp? ==>
      |requests[i].otp| == OtpLength && AllDigits(requests[i].otp)
  }

  predicate Valid(p: Page) {
    && p.timeLeft >= 0
    && (p.canResend <==> p.timeLeft == 0)
    && |p.otp| <= OtpLength && AllDigits(p.otp)
    && (p.inFlight ==> p.verifying)
    && (p.verifying ==> p.inFlight || p.location.Some?)
    && SentCodesWellFormed(p.requests)
  }

  /** The page as first rendered; without an email it redirects to registration. */
  function Mount(email: Option<string>): (p: Page)
    ensures Valid(p)
    ensures p.otp == "" && p.timeLeft == InitialSeconds && !p.canResend && !p.verifying
    ensures p.location.Some? <==> !Truthy(email)
  {
    Page(email, "", InitialSeconds, false, false, false,
         if Truthy(email) then None else Some(Navigate("/register", None)), [], [])
  }

  datatype Event =
    | Tick                     // one second of the countdown interval
    | Type(value: string)      // the field's new raw value
    | Submit                   // the form is submitted (button or Enter)
    | VerifySettled(ok: bool)  // the outstanding verifyOtp call resolves (ok) or rejects
    | ClickResend(ok: bool)    // the Resend OTP button, and whether resendOtp succeeds

  /** The field's `maxLength="6"` keeps every raw value to six characters. */
  predicate Allowed(e: Event) {
    e.Type? ==> |e.value| <= OtpLength
  }

  /** How many verifyOtp calls a log holds. */
  function VerifyCalls(requests: seq<Request>): nat {
    if requests == [] then 0
    else VerifyCalls(requests[..|requests| - 1]) + (if requests[|requests| - 1].VerifyOtp? then 1 else 0)
  }

  /** `handleVerify`: dropped while verifying, refused unless six digits, else the call is made. */
  function VerifyStep(p: Page): (q: Page)
    requires Valid(p)
    ensures Valid(q)
    ensures p.verifying ==> q == p
    ensures !p.verifying && |p.otp| != OtpLength ==> q == p.(toasts := p.toasts + [InvalidOtpToast])
    ensures !p.verifying && |p.otp| == OtpLength ==>
              q.verifying && q.inFlight && q.requests == p.requests + [VerifyOtp(p.email, p.otp)]
    ensures !p.verifying && |p.otp| == OtpLength ==> VerifyCalls(q.requests) == VerifyCalls(p.requests) + 1
  {
    if p.verifying then p
    else if |p.otp| != OtpLength then p.(toasts := p.toasts + [InvalidOtpToast])
    else
      var call := VerifyOtp(p.email, p.otp);
      VerifyCallsAppend(p.requests, call);
      SentCodesAppend(p.requests, call);
      p.(verifying := true, inFlight := true, requests := p.requests + [call])
  }

  /** Appending a call that carries six digits, or any other request, keeps the calls well formed. */
  lemma SentCodesAppend(requests: seq<Request>, r: Request)
    requires SentCodesWellFormed(requests)
    requires r.VerifyOtp? ==> |r.otp| == OtpLength && AllDigits(r.otp)
    ensures SentCodesWellFormed(requests + [r])
  {
    var rs := requests + [r];
    forall i | 0 <= i < |rs| && rs[i].VerifyOtp?
      ensures |rs[i].otp| == OtpLength && AllDigits(rs[i].otp)
    {
      if i < |requests| {
        assert rs[i] == requests[i];
      }
    }
  }

  function Step(p: Page, e: Event): (q: Page)
    requires Valid(p) && Allowed(e)
    ensures Valid(q)
    ensures q.email == p.email
    ensures p.location.Some? ==> q == p
    ensures p.requests <= q.requests && |q.requests| <= |p.requests| + 1
    ensures p.inFlight ==> VerifyCalls(q.requests) == VerifyCalls(p.requests)
    ensures VerifyCalls(q.requests) != VerifyCalls(p.requests) ==> !p.inFlight && q.inFlight
  {
    if p.location.Some? then p
    else
      match e
      case Tick =>
        if p.timeLeft > 0 then
          var t := p.timeLeft - 1;
          p.(timeLeft := t, canResend := if t <= 0 then true else p.canResend)
        else p
      case Type(value) =>
        if p.verifying then p  // the field is disabled
        else
          var otp := DigitsOnly(value);
          var p' := p.(otp := otp);
          if otp != p.otp && |otp| == OtpLength then VerifyStep(p') else p'
      case Submit =>
        VerifyStep(p)
      case VerifySettled(ok) =>
        if !p.inFlight then p
        else if ok then
          p.(inFlight := false, toasts := p.toasts + [VerifiedToast], location := Some(Navigate("/login", None)))
        else p.(inFlight := false, verifying := false)
      case ClickResend(ok) =>
        if !p.canResend then p  // the button is only shown once the countdown is over
        else
          VerifyCallsAppend(p.requests, ResendOtp(p.email));
          SentCodesAppend(p.requests, ResendOtp(p.email));
          var p' := p.(requests := p.requests + [ResendOtp(p.email)]);
          if ok then p'.(timeLeft := ResendSeconds, canResend := false) else p'
  }

  predicate AllAllowed(events: seq<Event>) {
    forall i :: 0 <= i < |events| ==> Allowed(events[i])
  }

  /** The page after a sequence of events. */
  function Run(p: Page, events: seq<Event>): (q: Page)
    requires Valid(p) && AllAllowed(events)
    ensures Valid(q)
    ensures q.email == p.email && p.requests <= q.requests
    decreases |events|
  {
    if events == [] then p else Run(Step(p, events[0]), events[1..])
  }

  function Ticks(n: nat): (events: seq<Event>)
    ensures |events| == n && forall i :: 0 <= i < n ==> events[i] == Tick
  {
    if n == 0 then [] else [Tick] + Ticks(n - 1)
  }

  /** Each tick takes one second off until zero, and resend is offered exactly when zero is reached. */
  lemma {:induction false} CountdownRun(p: Page, n: nat)
    requires Valid(p) && p.location.None?
    ensures AllAllowed(Ticks(n))
    ensures var q := Run(p, Ticks(n));
      && q.timeLeft == (if n <= p.timeLeft then p.timeLeft - n else 0)
      && (q.canResend <==> n >= p.timeLeft)
      && q.requests == p.requests
    decreases n
  {
    if n > 0 {
      var p' := Step(p, Tick);
      assert Ticks(n)[1..] == Ticks(n - 1);
      CountdownRun(p', n - 1);
    }
  }

  /** From mount, resend is first offered after 179 ticks. */
  lemma ResendOfferedAfterCountdown(email: Option<string>, n: nat)
    requires Truthy(email)
    ensures AllAllowed(Ticks(n))
    ensures Run(Mount(email), Ticks(n)).canResend <==> n >= InitialSeconds
  {
    CountdownRun(Mount(email), n);
  }

  /** After the page navigates away (verified, or no email), no event changes it. */
  lemma {:induction false} NavigatedAwayIsFinal(p: Page, events: seq<Event>)
    requires Valid(p) && AllAllowed(events) && p.location.Some?
    ensures Run(p, events) == p
    decreases |events|
  {
    if events != [] {
      NavigatedAwayIsFinal(Step(p, events[0]), events[1..]);
    }
  }

  lemma VerifyCallsAppend(requests: seq<Request>, r: Request)
    ensures VerifyCalls(requests + [r]) == VerifyCalls(requests) + (if r.VerifyOtp? then 1 else 0)
  {
    assert (requests + [r])[..|requests|] == requests;
  }

  /** Six digits typed while idle submit themselves: exactly one verifyOtp call, carrying them. */
  lemma AutoSubmit(p: Page, value: string)
    requires Valid(p) && p.location.None? && !p.verifying && |value| <= OtpLength
    requires |DigitsOnly(value)| == OtpLength && DigitsOnly(value) != p.otp
    ensures var q := Step(p, Type(value));
      q.requests == p.requests + [VerifyOtp(p.email, DigitsOnly(value))] && q.verifying && q.inFlight
  {
  }

  /** A failed verification releases the guard and keeps the code, with no toast; a successful one toasts and goes to the login page. */
  lemma VerifyOutcome(p: Page, ok: bool)
    requires Valid(p) && p.location.None? && p.inFlight
    ensures var q := Step(p, VerifySettled(ok));
      && q.otp == p.otp && q.timeLeft == p.timeLeft && q.requests == p.requests
      && (!ok ==> !q.verifying && q.location.None? && q.toasts == p.toasts)
      && (ok ==> q.verifying && q.location == Some(Navigate("/login", None)) && q.toasts == p.toasts + [VerifiedToast])
  {
  }

  /** A successful resend restarts the countdown at 60 and hides the button; a failed one changes neither. */
  lemma ResendOutcome(p: Page, ok: bool)
    requires Valid(p) && p.location.None? && p.canResend
    ensures var q := Step(p, ClickResend(ok));
      && q.requests == p.requests + [ResendOtp(p.email)]
      && (ok ==> q.timeLeft == ResendSeconds && !q.canResend)
      && (!ok ==> q.timeLeft == p.timeLeft && q.canResend)
  {
  }

  /** The page with its state in fields, each handler updating them in place. */
  class VerifyOtpPage {
    var email: Option<string>
    var otp: string
    var timeLeft: int
    var canResend: bool
    var verifying: bool
    var inFlight: bool
    var location: Option<Navigation>
    var toasts: seq<string>
    var requests: seq<Request>

    function State(): Page
      reads this
    {
      Page(email, otp, timeLeft, canResend, verifying, inFlight, location, toasts, requests)
    }

    constructor (email: Option<string>)
      ensures State() == Mount(email)
    {
      this.email := email;
      otp := "";
      timeLeft := InitialSeconds;
      canResend := false;
      verifying := false;
      inFlight := false;
      toasts := [];
      requests := [];
      location := None;
      new;
      if !Truthy(email) {
        location := Some(Navigate("/register", None));
      }
    }

    /** One run of the interval callback, followed by the countdown effect it triggers. */
    method Tick()
      requires Valid(State())
      modifies this
      ensures State() == Step(old(State()), Event.Tick)
    {
      if location.None? && timeLeft > 0 {
        timeLeft := timeLeft - 1;
        if timeLeft <= 0 {
          canResend := true;
        }
      }
    }

    method HandleVerify()
      requires Valid(State()) && location.None?
      modifies this
      ensures State() == VerifyStep(old(State()))
    {
      if verifying {
        return;
      }
      if |otp| != OtpLength {
        toasts := toasts + [InvalidOtpToast];
        return;
      }
      verifying := true;
      inFlight := true;
      requests := requests + [VerifyOtp(email, otp)];
    }

    /** The field's `onChange`, then the auto-submit effect when the code changed to six digits. */
    method OnChange(value: string)
      requires Valid(State()) && |value| <= OtpLength
      modifies this
      ensures State() == Step(old(State()), Type(value))
    {
      if location.Some? || verifying {
        return;
      }
      var previous := otp;
      otp := DigitsOnly(value);
      if otp != previous && |otp| == OtpLength {
        HandleVerify();
      }
    }

    method OnSubmit()
      requires Valid(State())
      modifies this
      ensures State() == Step(old(State()), Submit)
    {
      if location.None? {
        HandleVerify();
      }
    }

    /** The outstanding verifyOtp call settles. */
    method OnVerifySettled(ok: bool)
      requires Valid(State())
      modifies this
      ensures State() == Step(old(State()), VerifySettled(ok))
    {
      if location.Some? || !inFlight {
        return;
      }
      inFlight := false;
      if ok {
        toasts := toasts + [VerifiedToast];
        location := Some(Navigate("/login", None));
      } else {
        verifying := false;
      }
    }

    /** `handleResend`, reachable only through the button shown once `canResend` holds. */
    method HandleResend(ok: bool)
      requires Valid(State())
      modifies this
      ensures State() == Step(old(State()), ClickResend(ok))
    {
      if location.Some? || !canResend {
        return;
      }
      requests := requests + [ResendOtp(email)];
      if ok {
        timeLeft := ResendSeconds;
        canResend := false;
      }
    }
  }
}
