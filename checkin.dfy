/**
 * `checkIn` of main.js: one account's sign-in, decided in order by the
 * registry lookup, the HTTP status of the reply, and the site's classifier.
 */
module CheckIn {
  import opened Wrappers
  import opened Json
  import opened Sites

  /** One entry of the account list. `site` is the key as JavaScript converts it to a string. */
  datatype Account = Account(name: string, site: string, cookie: string)

  /** What `fetch` settled with for the sign-in request. */
  datatype Transport =
    | Unreachable            // `fetch` rejected before any reply
    | Reply(status: nat)     // an HTTP reply with this status

  /** `response.ok`: the status is in the 2xx range. */
  predicate StatusOk(status: nat)
  {
    200 <= status <= 299
  }

  /** Why one account's `checkIn` promise rejected. */
  datatype CheckInError =
    | UnknownSite(site: string)       // `未知站点：<site>`
    | FetchFailed                     // the rejection of `fetch` itself
    | NetworkError(status: nat)       // `网络错误：<status>`
    | BodyFault(fault: Fault)         // `parseResult` rejected
    | Rejected(reason: Option<Json>)  // the site's own `msg`
    | Unprintable                     // TypeError: the verdict's `msg` has no string form

  /**
   * `checkIn(account)`, given what the network would answer. Unknown sites
   * fail before any request; a non-2xx reply fails before the classifier runs;
   * otherwise the classifier's `msg` is the value or the rejection reason,
   * once it has been converted to a string (main.js:71, main.js:74).
   */
  function CheckIn(account: Account, transport: Transport, body: Body): (r: Result<Option<Json>, CheckInError>)
    ensures Lookup(account.site).None? ==> r == Failure(UnknownSite(account.site))
    ensures Lookup(account.site).Some? && transport.Unreachable? ==> r == Failure(FetchFailed)
    ensures Lookup(account.site).Some? && transport.Reply? && !StatusOk(transport.status) ==>
      r == Failure(NetworkError(transport.status))
    ensures Lookup(account.site).Some? && transport.Reply? && StatusOk(transport.status) ==>
      var c := Classify(Lookup(account.site).value, body);
      && (c.Failure? ==> r == Failure(BodyFault(c.error)))
      && (c.Success? && !(c.value.msg.None? || Printable(c.value.msg.value)) ==> r == Failure(Unprintable))
      && (c.Success? && (c.value.msg.None? || Printable(c.value.msg.value)) ==>
            r == if c.value.ok then Success(c.value.msg) else Failure(Rejected(c.value.msg)))
    ensures r.Success? ==>
      && Lookup(account.site).Some? && transport.Reply? && StatusOk(transport.status)
      && Classify(Lookup(account.site).value, body) == Success(Verdict(true, r.value))
    ensures r.Failure? && r.error.Rejected? ==>
      Classify(Lookup(account.site).value, body) == Success(Verdict(false, r.error.reason))
  {
    match Lookup(account.site)
    case None => Failure(UnknownSite(account.site))
    case Some(site) =>
      match transport
      case Unreachable => Failure(FetchFailed)
      case Reply(status) =>
        if !StatusOk(status) then Failure(NetworkError(status))
        else
          match Classify(site, body)
          case Failure(fault) => Failure(BodyFault(fault))
          case Success(verdict) =>
            if verdict.msg.Some? && !Printable(verdict.msg.value) then Failure(Unprintable)
            else if verdict.ok then Success(verdict.msg) else Failure(Rejected(verdict.msg))
  }

  /** An unknown site fails the same way whatever the network would have answered: no request is made. */
  lemma UnknownSiteMakesNoRequest(account: Account, t1: Transport, b1: Body, t2: Transport, b2: Body)
    requires Lookup(account.site).None?
    ensures CheckIn(account, t1, b1) == CheckIn(account, t2, b2) == Failure(UnknownSite(account.site))
    ensures Message(CheckIn(account, t1, b1).error) == UnknownSitePrefix + account.site
  {
  }

  /** A non-2xx reply fails with its status whatever the body: the classifier is never consulted. */
  lemma NetworkErrorIgnoresBody(account: Account, status: nat, b1: Body, b2: Body)
    requires Lookup(account.site).Some? && !StatusOk(status)
    ensures CheckIn(account, Reply(status), b1) == CheckIn(account, Reply(status), b2)
                                              == Failure(NetworkError(status))
    ensures Message(CheckIn(account, Reply(status), b1).error) == NetworkErrorPrefix + Decimal(status)
  {
  }

  /**
   * With a 2xx reply for a registered site, the check-in succeeds with the
   * classifier's `msg` exactly when the classifier says ok, and otherwise
   * rejects with that same `msg` (or with the classifier's own fault).
   */
  lemma ClassifiedOutcome(account: Account, status: nat, body: Body)
    requires Lookup(account.site).Some? && StatusOk(status)
    ensures var c := Classify(Lookup(account.site).value, body);
      && (c.Failure? ==> CheckIn(account, Reply(status), body) == Failure(BodyFault(c.error)))
      && (c.Success? && c.value.msg.Some? && !Printable(c.value.msg.value) ==>
            CheckIn(account, Reply(status), body) == Failure(Unprintable))
      && (c.Success? && c.value.ok && (c.value.msg.None? || Printable(c.value.msg.value)) ==>
            CheckIn(account, Reply(status), body) == Success(c.value.msg))
      && (c.Success? && !c.value.ok && (c.value.msg.None? || Printable(c.value.msg.value)) ==>
            CheckIn(account, Reply(status), body) == Failure(Rejected(c.value.msg)))
  {
  }

  /**
   * A reply message that is an object with its own `toString` cannot be logged
   * at main.js:71, so even a success verdict ends in a rejection.
   */
  lemma UnprintableMessageRejects(account: Account)
    requires Lookup(account.site) == Some(HiFiTi)
    ensures var message := JObject(map["toString" := JNumber(1.0)]);
      CheckIn(account, Reply(200), Parsed(JObject(map["code" := JString("0"), "message" := message])))
        == Failure(Unprintable)
  {
  }

  /** An absent, `null` or string message always converts: such a reply is never `Unprintable`. */
  lemma TextMessagesArePrintable(account: Account, transport: Transport, body: Body)
    requires Lookup(account.site).Some?
    requires var c := Classify(Lookup(account.site).value, body);
      c.Success? ==> c.value.msg.None? || c.value.msg.value.JNull? || c.value.msg.value.JString?
    ensures CheckIn(account, transport, body) != Failure(Unprintable)
  {
  }

  // ---- The text of the errors `checkIn` builds itself ----

  const UnknownSitePrefix: string := "未知站点："
  const NetworkErrorPrefix: string := "网络错误："

  /** The decimal digits of `n`, as `${n}` writes them. */
  function Decimal(n: nat): (s: string)
    ensures |s| >= 1 && IsDigits(s)
    ensures |s| == 1 || s[0] != '0'
    decreases n
  {
    if n < 10 then [Digit(n)] else Decimal(n / 10) + [Digit(n % 10)]
  }

  function Digit(d: nat): (c: char)
    requires d < 10
    ensures '0' <= c <= '9' && c as int - '0' as int == d
  {
    (d + '0' as int) as char
  }

  predicate IsDigits(s: string)
  {
    forall k :: 0 <= k < |s| ==> '0' <= s[k] <= '9'
  }

  /** The number that a string of decimal digits denotes. */
  function DecimalValue(s: string): nat
    requires IsDigits(s)
    decreases |s|
  {
    if s == [] then 0 else 10 * DecimalValue(s[..|s| - 1]) + (s[|s| - 1] as int - '0' as int)
  }

  /** Reading back the rendered status gives the status. */
  lemma {:induction false} DecimalRoundTrip(n: nat)
    ensures DecimalValue(Decimal(n)) == n
    decreases n
  {
    if n >= 10 {
      var s := Decimal(n);
      assert s[..|s| - 1] == Decimal(n / 10);
      DecimalRoundTrip(n / 10);
    }
  }

  /** `error.message` for the two errors `checkIn` constructs itself. */
  function Message(e: CheckInError): (m: string)
    requires e.UnknownSite? || e.NetworkError?
  {
    match e
    case UnknownSite(site) => UnknownSitePrefix + site
    case NetworkError(status) => NetworkErrorPrefix + Decimal(status)
  }

  /** The message determines the error: which kind it is, and the site or the status. */
  lemma MessageDeterminesError(e1: CheckInError, e2: CheckInError)
    requires e1.UnknownSite? || e1.NetworkError?
    requires e2.UnknownSite? || e2.NetworkError?
    requires Message(e1) == Message(e2)
    ensures e1 == e2
  {
    var m := Message(e1);
    assert m[0] == Message(e2)[0];
    assert m[|UnknownSitePrefix|..] == Message(e2)[|UnknownSitePrefix|..];
    if e1.NetworkError? && e2.NetworkError? {
      assert Decimal(e1.status) == m[|NetworkErrorPrefix|..];
      DecimalRoundTrip(e1.status);
      DecimalRoundTrip(e2.status);
    } else if e1.UnknownSite? && e2.UnknownSite? {
      assert e1.site == m[|UnknownSitePrefix|..];
    }
  }
}
