/**
 * The site registry of main.js: two forums, keyed "hifiti" and "binmt", each
 * with its own rule for turning the parsed reply of the sign-in request into
 * a verdict `{ok, msg}`.
 */
module Sites {
  import opened Wrappers
  import opened Json

  /** The registered forums. */
  datatype Site = HiFiTi | BinMT

  /** The registry's keys, as the account configuration spells them. */
  function Key(site: Site): string
  {
    match site
    case HiFiTi => "hifiti"
    case BinMT => "binmt"
  }

  /** `sites[key]`: the registry has exactly the two keys. */
  function Lookup(key: string): (r: Option<Site>)
    ensures r.Some? <==> key == "hifiti" || key == "binmt"
    ensures r.Some? ==> Key(r.value) == key
  {
    if key == "hifiti" then Some(HiFiTi)
    else if key == "binmt" then Some(BinMT)
    else None
  }

  /** Looking a site up by its own key finds it again. */
  lemma LookupKey(site: Site)
    ensures Lookup(Key(site)) == Some(site)
  {
  }

  /** The reply body as `res.json()` delivers it. */
  datatype Body =
    | Malformed          // `res.json()` rejects: the body is not JSON
    | Parsed(root: Json)

  /** What `parseResult` resolves to. `msg` is `undefined` when `None`. */
  datatype Verdict = Verdict(ok: bool, msg: Option<Json>)

  /** Why `parseResult` rejected instead of resolving. */
  datatype Fault =
    | BodyNotJson        // SyntaxError from `res.json()`
    | NullBody           // TypeError: reading a property of `null`
    | MsgNotSearchable   // TypeError: `msg.includes` is not a function

  /** HiFiTi's reply text for a second sign-in on the same day. */
  const HiFiTiAlreadySigned: string := "今天已经签过啦！"

  /** The phrase BinMT's reply contains for a second sign-in on the same day. */
  const BinMTAlreadySigned: string := "已签到"

  /** BinMT's failure message when the reply carries none. */
  const BinMTDefaultFailure: string := "签到失败"

  /**
   * HiFiTi's `parseResult`: success when `code` is the STRING "0", or else when
   * `message` is exactly the already-signed text; `msg` is always `message`.
   */
  function ClassifyHiFiTi(body: Body): (r: Result<Verdict, Fault>)
    ensures body.Malformed? ==> r == Failure(BodyNotJson)
    ensures body == Parsed(JNull) ==> r == Failure(NullBody)
    ensures body.Parsed? && body.root != JNull ==> r.Success?
    ensures r.Success? ==> r.value.msg == Member(body.root, "message")
    ensures r.Success? ==>
      (r.value.ok <==> (|| Member(body.root, "code") == Some(JString("0"))
                        || Member(body.root, "message") == Some(JString(HiFiTiAlreadySigned))))
  {
    match body
    case Malformed => Failure(BodyNotJson)
    case Parsed(JNull) => Failure(NullBody)
    case Parsed(root) =>
      var message := Member(root, "message");
      if Member(root, "code") == Some(JString("0")) then Success(Verdict(true, message))
      else Success(Verdict(message == Some(JString(HiFiTiAlreadySigned)), message))
  }

  /**
   * BinMT's `parseResult`: success when `status` is the NUMBER 0, or else when
   * `msg` mentions the already-signed phrase; a failure carries `msg` when it
   * is truthy and the default text otherwise.
   */
  function ClassifyBinMT(body: Body): (r: Result<Verdict, Fault>)
    ensures body.Malformed? ==> r == Failure(BodyNotJson)
    ensures body == Parsed(JNull) ==> r == Failure(NullBody)
    ensures body.Parsed? && body.root != JNull ==>
      var msg := Member(body.root, "msg");
      && (r.Failure? <==> (&& Member(body.root, "status") != Some(JNumber(0.0))
                           && msg.Some? && (msg.value.JNumber? || msg.value.JBool? || msg.value.JObject?)))
      && (r.Failure? ==> r.error == MsgNotSearchable)
      && (r.Success? ==>
            && (r.value.ok <==> (|| Member(body.root, "status") == Some(JNumber(0.0))
                                 || Mentions(msg, BinMTAlreadySigned)))
            && (r.value.ok || Truthy(msg) ==> r.value.msg == msg)
            && (!r.value.ok && !Truthy(msg) ==> r.value.msg == Some(JString(BinMTDefaultFailure))))
  {
    match body
    case Malformed => Failure(BodyNotJson)
    case Parsed(JNull) => Failure(NullBody)
    case Parsed(root) =>
      var msg := Member(root, "msg");
      if Member(root, "status") == Some(JNumber(0.0)) then Success(Verdict(true, msg))
      else
        match OptionalIncludes(msg, BinMTAlreadySigned)
        case Failure(_) => Failure(MsgNotSearchable)
        case Success(found) =>
          if found then Success(Verdict(true, msg))
          else Success(Verdict(false, if Truthy(msg) then msg else Some(JString(BinMTDefaultFailure))))
  }

  /** `siteCfg.parseResult(response)` for a registered site. */
  function Classify(site: Site, body: Body): Result<Verdict, Fault>
  {
    match site
    case HiFiTi => ClassifyHiFiTi(body)
    case BinMT => ClassifyBinMT(body)
  }

  /**
   * A BinMT failure always carries a truthy message: a non-empty string or an
   * array (an array is truthy even when empty).
   */
  lemma BinMTFailureMessageTruthy(body: Body)
    requires ClassifyBinMT(body).Success? && !ClassifyBinMT(body).value.ok
    ensures Truthy(ClassifyBinMT(body).value.msg)
    ensures var m := ClassifyBinMT(body).value.msg;
      m.Some? && ((m.value.JString? && m.value.s != "") || m.value.JArray?)
  {
  }

  /** Every verdict that says ok carries the reply's own message unchanged. */
  lemma OkVerdictKeepsMessage(site: Site, root: Json)
    requires Classify(site, Parsed(root)).Success? && Classify(site, Parsed(root)).value.ok
    ensures Classify(site, Parsed(root)).value.msg ==
      Member(root, if site == HiFiTi then "message" else "msg")
  {
  }

  /** A numeric 0 in HiFiTi's `code` is not success: only the string "0" is. */
  lemma HiFiTiNumericCodeIsNotSuccess(text: string)
    requires text != HiFiTiAlreadySigned
    ensures ClassifyHiFiTi(Parsed(JObject(map["code" := JNumber(0.0), "message" := JString(text)])))
         == Success(Verdict(false, Some(JString(text))))
  {
  }

  /** A string "0" in BinMT's `status` is not success: only the number 0 is. */
  lemma BinMTStringStatusIsNotSuccess()
    ensures ClassifyBinMT(Parsed(JObject(map["status" := JString("0")])))
         == Success(Verdict(false, Some(JString(BinMTDefaultFailure))))
  {
  }

  /** Re-running on a day already signed is success on both sites, whatever the primary field says. */
  lemma {:induction false} AlreadySignedIsSuccess(code: Json, status: Json, prefix: string, suffix: string)
    ensures ClassifyHiFiTi(Parsed(JObject(map["code" := code, "message" := JString(HiFiTiAlreadySigned)])))
         == Success(Verdict(true, Some(JString(HiFiTiAlreadySigned))))
    ensures var text := prefix + BinMTAlreadySigned + suffix;
      ClassifyBinMT(Parsed(JObject(map["status" := status, "msg" := JString(text)])))
         == Success(Verdict(true, Some(JString(text))))
  {
    var text := prefix + BinMTAlreadySigned + suffix;
    assert text[|prefix|..|prefix| + |BinMTAlreadySigned|] == BinMTAlreadySigned;
    assert OccursAt(BinMTAlreadySigned, text, |prefix|);
  }
}
