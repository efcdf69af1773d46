/**
 * `AppWeChatPay`: placing an order for an in-app payment and building the
 * signed parameters the app hands to the WeChat client.
 *
 * The clock (`time()`) is the parameter `now` when the order is built and
 * `stamp` when the client parameters are built; `fmt` is
 * `formatDate('YmdHis', ·)`.
 */
module AppWeChatPay {
  import opened Wrappers
  import opened PhpArray
  import opened PayAbstract
  import opened WeChatPay

  const UnifiedOrderEndpoint := "pay/unifiedorder"
  const AppPackage := "Sign=WXPay"

  /** The expiry moment of an order: `timeExpire` minutes from now when above 5, otherwise 15 minutes. */
  function ExpiryTime(now: int, timeExpire: int): (r: int)
    ensures timeExpire > 5 ==> r == now + 60 * timeExpire
    ensures timeExpire <= 5 ==> r == now + 900
    ensures r - now >= 360
  {
    if timeExpire != 0 && timeExpire > 5 then now + timeExpire * 60 else now + 900
  }

  /** The unified-order request before signing; the nonce is left empty. */
  function OrderFields(m: Merchant, fmt: int -> string, now: int, payOrderId: Value, body: Value, fee: Value,
                       notifyUrl: Value, ip: Value, timeExpire: int): PhpArray
  {
    [("appid", m.appId), ("mch_id", m.partnerId), ("nonce_str", VStr("")), ("body", body),
     ("out_trade_no", payOrderId), ("total_fee", VInt(IntCast(fee))), ("spbill_create_ip", ip),
     ("notify_url", notifyUrl), ("trade_type", VStr("APP")),
     ("time_expire", VStr(fmt(ExpiryTime(now, timeExpire))))]
  }

  /** The signed unified-order request that is posted: the fields, then their `sign`. */
  function OrderRequest(md5: Md5, m: Merchant, fmt: int -> string, now: int, payOrderId: Value, body: Value, fee: Value,
                        notifyUrl: Value, ip: Value, timeExpire: int): (r: PhpArray)
    ensures Keys(r) == Keys(OrderFields(m, fmt, now, payOrderId, body, fee, notifyUrl, ip, timeExpire)) + ["sign"]
    ensures Unset(r, "sign") == OrderFields(m, fmt, now, payOrderId, body, fee, notifyUrl, ip, timeExpire)
    ensures At(r, "sign") == VStr(GetSign(md5, m, OrderFields(m, fmt, now, payOrderId, body, fee, notifyUrl, ip, timeExpire)))
    ensures At(r, "trade_type") == VStr("APP") && At(r, "total_fee") == VInt(IntCast(fee))
  {
    var f := OrderFields(m, fmt, now, payOrderId, body, fee, notifyUrl, ip, timeExpire);
    OrderFieldsUnsigned(m, fmt, now, payOrderId, body, fee, notifyUrl, ip, timeExpire);
    OrderFieldFacts(m, fmt, now, payOrderId, body, fee, notifyUrl, ip, timeExpire);
    SignedAppends(md5, m, f);
    Signed(md5, m, f)
  }

  /** The order's fields, in the order the request lists them. */
  lemma OrderFieldKeys(m: Merchant, fmt: int -> string, now: int, payOrderId: Value, body: Value, fee: Value,
                       notifyUrl: Value, ip: Value, timeExpire: int)
    ensures Keys(OrderFields(m, fmt, now, payOrderId, body, fee, notifyUrl, ip, timeExpire))
         == ["appid", "mch_id", "nonce_str", "body", "out_trade_no", "total_fee", "spbill_create_ip",
             "notify_url", "trade_type", "time_expire"]
  {
  }

  /** The order carries no `sign` before it is signed. */
  lemma OrderFieldsUnsigned(m: Merchant, fmt: int -> string, now: int, payOrderId: Value, body: Value, fee: Value,
                            notifyUrl: Value, ip: Value, timeExpire: int)
    ensures "sign" !in ToMap(OrderFields(m, fmt, now, payOrderId, body, fee, notifyUrl, ip, timeExpire))
  {
    KeyAbsent(OrderFields(m, fmt, now, payOrderId, body, fee, notifyUrl, ip, timeExpire), "sign");
  }

  lemma OrderFieldFacts(m: Merchant, fmt: int -> string, now: int, payOrderId: Value, body: Value, fee: Value,
                        notifyUrl: Value, ip: Value, timeExpire: int)
    ensures At(OrderFields(m, fmt, now, payOrderId, body, fee, notifyUrl, ip, timeExpire), "trade_type") == VStr("APP")
    ensures At(OrderFields(m, fmt, now, payOrderId, body, fee, notifyUrl, ip, timeExpire), "total_fee") == VInt(IntCast(fee))
  {
    var f := OrderFields(m, fmt, now, payOrderId, body, fee, notifyUrl, ip, timeExpire);
    AtIndex(f, 5);
    AtIndex(f, 8);
  }

  /** The empty nonce never enters the order's signature. */
  lemma OrderSignatureWithoutNonce(m: Merchant, fmt: int -> string, now: int, payOrderId: Value, body: Value, fee: Value,
                                   notifyUrl: Value, ip: Value, timeExpire: int, v: Value)
    ensures ("nonce_str", v) !in SignPairs(OrderFields(m, fmt, now, payOrderId, body, fee, notifyUrl, ip, timeExpire))
  {
    var f := OrderFields(m, fmt, now, payOrderId, body, fee, notifyUrl, ip, timeExpire);
    AtIndex(f, 2);
    if ("nonce_str", v) in f {
      EntryInToMap(f, ("nonce_str", v));
    }
  }

  /** The client parameters before signing. */
  function PrepayFields(m: Merchant, stamp: int, prepayId: Value): PhpArray
  {
    [("appid", m.appId), ("partnerid", m.partnerId), ("prepayid", prepayId), ("noncestr", VStr("")),
     ("timestamp", VInt(stamp)), ("package", VStr(AppPackage))]
  }

  /** `_buildPrepayQueryParameters`: a falsy prepay id is refused; otherwise the six fields, then their `sign`. */
  function PrepayParameters(md5: Md5, m: Merchant, stamp: int, prepayId: Value): (r: Result<PhpArray, PayError>)
    ensures r.Err? <==> !Truthy(prepayId)
    ensures r.Err? ==> r.error == PrepayError(InvalidPrepayId)
    ensures r.Ok? ==> Keys(r.value) == Keys(PrepayFields(m, stamp, prepayId)) + ["sign"]
    ensures r.Ok? ==> Unset(r.value, "sign") == PrepayFields(m, stamp, prepayId)
    ensures r.Ok? ==> At(r.value, "sign") == VStr(GetSign(md5, m, PrepayFields(m, stamp, prepayId)))
    ensures r.Ok? ==> At(r.value, "prepayid") == prepayId && At(r.value, "package") == VStr(AppPackage)
  {
    if !Truthy(prepayId) then Err(PrepayError(InvalidPrepayId))
    else
      var f := PrepayFields(m, stamp, prepayId);
      PrepayFieldsUnsigned(m, stamp, prepayId);
      PrepayFieldFacts(m, stamp, prepayId);
      SignedAppends(md5, m, f);
      Ok(Signed(md5, m, f))
  }

  /** The client parameters' fields, in order. */
  lemma PrepayFieldKeys(m: Merchant, stamp: int, prepayId: Value)
    ensures Keys(PrepayFields(m, stamp, prepayId)) == ["appid", "partnerid", "prepayid", "noncestr", "timestamp", "package"]
  {
  }

  lemma PrepayFieldsUnsigned(m: Merchant, stamp: int, prepayId: Value)
    ensures "sign" !in ToMap(PrepayFields(m, stamp, prepayId))
  {
    KeyAbsent(PrepayFields(m, stamp, prepayId), "sign");
  }

  lemma PrepayFieldFacts(m: Merchant, stamp: int, prepayId: Value)
    ensures At(PrepayFields(m, stamp, prepayId), "prepayid") == prepayId
    ensures At(PrepayFields(m, stamp, prepayId), "package") == VStr(AppPackage)
  {
    AtIndex(PrepayFields(m, stamp, prepayId), 2);
    AtIndex(PrepayFields(m, stamp, prepayId), 5);
  }

  /** The client parameters pass `verifyData` with the same key. */
  lemma PrepayParametersVerify(md5: Md5, m: Merchant, stamp: int, prepayId: Value)
    requires DigestShaped(md5) && Truthy(prepayId)
    ensures VerifyData(md5, m, PrepayParameters(md5, m, stamp, prepayId).value) == Ok(true)
  {
    PrepayFieldsUnsigned(m, stamp, prepayId);
    SignThenVerify(md5, m, PrepayFields(m, stamp, prepayId));
  }

  /** `_buildPrepayQueryParameters`, step by step. */
  method BuildPrepayQueryParameters(md5: Md5, m: Merchant, stamp: int, prepayId: Value) returns (r: Result<PhpArray, PayError>)
    ensures r == PrepayParameters(md5, m, stamp, prepayId)
  {
    if !Truthy(prepayId) {
      return Err(PrepayError(InvalidPrepayId));
    }
    var data := PrepayFields(m, stamp, prepayId);
    data := Set(data, "sign", VStr(GetSign(md5, m, data)));
    return Ok(data);
  }

  /**
   * `buildOrder`: post the signed order; a rejected reply is the result,
   * otherwise the reply together with the client parameters built from its
   * `prepay_id`.
   */
  method BuildOrder(md5: Md5, post: Post, fmt: int -> string, m: Merchant, now: int, stamp: int,
                    payOrderId: Value, body: Value, fee: Value, notifyUrl: Value, ip: Value, timeExpire: int)
    returns (r: Result<(PhpArray, PhpArray), PayError>)
    ensures var parsed := ParseReply(post(UnifiedOrderEndpoint, OrderRequest(md5, m, fmt, now, payOrderId, body, fee, notifyUrl, ip, timeExpire)));
      (parsed.Err? ==> r == Err(parsed.error)) &&
      (parsed.Ok? ==>
        var prepay := PrepayParameters(md5, m, stamp, At(parsed.value, "prepay_id"));
        (prepay.Err? ==> r == Err(prepay.error)) &&
        (prepay.Ok? ==> r == Ok((parsed.value, prepay.value))))
  {
    var data := OrderFields(m, fmt, now, payOrderId, body, fee, notifyUrl, ip, timeExpire);
    data := Set(data, "sign", VStr(GetSign(md5, m, data)));
    var response := ParseReply(post(UnifiedOrderEndpoint, data));
    if response.Err? {
      return Err(response.error);
    }
    var prepay := BuildPrepayQueryParameters(md5, m, stamp, At(response.value, "prepay_id"));
    if prepay.Err? {
      return Err(prepay.error);
    }
    return Ok((response.value, prepay.value));
  }
}
