/**
 * `JsApiWeChatPay`: placing an order from a web page inside WeChat and
 * building the signed parameters the page passes to the JS bridge.
 *
 * `now` is `time()` when the order is built and `stamp` when the client
 * parameters are; `nonce` and `clientNonce` stand for `buildNonce(16)` and
 * `getRandString(32)`; `fmt` is `date('YmdHis', ·)`.
 */
module JsApiWeChatPay {
  import opened Wrappers
  import opened PhpArray
  import opened PayAbstract
  import opened WeChatPay

  const UnifiedOrderUrl := "https://api.mch.weixin.qq.com/pay/unifiedorder"
  const SignType := "MD5"

  /** `$openId ?: ''`: a falsy open id becomes the empty string. */
  function OpenIdField(openId: Value): (r: Value)
    ensures Truthy(r) <==> Truthy(openId)
    ensures Truthy(openId) ==> r == openId
  {
    if Truthy(openId) then openId else VStr("")
  }

  /** The unified-order request before signing. `timeExpire` is added to the clock as seconds. */
  function OrderFields(m: Merchant, p: Provider, fmt: int -> string, now: int, nonce: string, payOrderId: Value,
                       body: Value, fee: Value, notifyUrl: Value, ip: Value, timeExpire: Value, openId: Value): PhpArray
  {
    [("appid", m.appId), ("mch_id", p.mchId), ("sub_mch_id", p.subMchId), ("nonce_str", VStr(nonce)),
     ("body", body), ("out_trade_no", payOrderId), ("total_fee", VInt(IntCast(fee))), ("spbill_create_ip", ip),
     ("notify_url", notifyUrl), ("trade_type", VStr("JSAPI")), ("openid", OpenIdField(openId)),
     ("time_expire", VStr(fmt(now + IntCast(timeExpire))))]
  }

  lemma OrderFieldKeys(m: Merchant, p: Provider, fmt: int -> string, now: int, nonce: string, payOrderId: Value,
                       body: Value, fee: Value, notifyUrl: Value, ip: Value, timeExpire: Value, openId: Value)
    ensures Keys(OrderFields(m, p, fmt, now, nonce, payOrderId, body, fee, notifyUrl, ip, timeExpire, openId))
         == ["appid", "mch_id", "sub_mch_id", "nonce_str", "body", "out_trade_no", "total_fee", "spbill_create_ip",
             "notify_url", "trade_type", "openid", "time_expire"]
  {
  }

  lemma OrderFieldsUnsigned(m: Merchant, p: Provider, fmt: int -> string, now: int, nonce: string, payOrderId: Value,
                            body: Value, fee: Value, notifyUrl: Value, ip: Value, timeExpire: Value, openId: Value)
    ensures "sign" !in ToMap(OrderFields(m, p, fmt, now, nonce, payOrderId, body, fee, notifyUrl, ip, timeExpire, openId))
  {
    KeyAbsent(OrderFields(m, p, fmt, now, nonce, payOrderId, body, fee, notifyUrl, ip, timeExpire, openId), "sign");
  }

  lemma OrderFieldFacts(m: Merchant, p: Provider, fmt: int -> string, now: int, nonce: string, payOrderId: Value,
                        body: Value, fee: Value, notifyUrl: Value, ip: Value, timeExpire: Value, openId: Value)
    ensures At(OrderFields(m, p, fmt, now, nonce, payOrderId, body, fee, notifyUrl, ip, timeExpire, openId), "trade_type") == VStr("JSAPI")
    ensures At(OrderFields(m, p, fmt, now, nonce, payOrderId, body, fee, notifyUrl, ip, timeExpire, openId), "total_fee") == VInt(IntCast(fee))
    ensures At(OrderFields(m, p, fmt, now, nonce, payOrderId, body, fee, notifyUrl, ip, timeExpire, openId), "openid") == OpenIdField(openId)
    ensures At(OrderFields(m, p, fmt, now, nonce, payOrderId, body, fee, notifyUrl, ip, timeExpire, openId), "time_expire")
         == VStr(fmt(now + IntCast(timeExpire)))
  {
    var f := OrderFields(m, p, fmt, now, nonce, payOrderId, body, fee, notifyUrl, ip, timeExpire, openId);
    AtIndex(f, 6);
    AtIndex(f, 9);
    AtIndex(f, 10);
    AtIndex(f, 11);
  }

  /** The signed unified-order request that is posted: the fields, then their `sign`. */
  function OrderRequest(md5: Md5, m: Merchant, p: Provider, fmt: int -> string, now: int, nonce: string, payOrderId: Value,
                        body: Value, fee: Value, notifyUrl: Value, ip: Value, timeExpire: Value, openId: Value): (r: PhpArray)
    ensures Keys(r) == Keys(OrderFields(m, p, fmt, now, nonce, payOrderId, body, fee, notifyUrl, ip, timeExpire, openId)) + ["sign"]
    ensures Unset(r, "sign") == OrderFields(m, p, fmt, now, nonce, payOrderId, body, fee, notifyUrl, ip, timeExpire, openId)
    ensures At(r, "sign") == VStr(GetSign(md5, m, OrderFields(m, p, fmt, now, nonce, payOrderId, body, fee, notifyUrl, ip, timeExpire, openId)))
  {
    var f := OrderFields(m, p, fmt, now, nonce, payOrderId, body, fee, notifyUrl, ip, timeExpire, openId);
    OrderFieldsUnsigned(m, p, fmt, now, nonce, payOrderId, body, fee, notifyUrl, ip, timeExpire, openId);
    SignedAppends(md5, m, f);
    Signed(md5, m, f)
  }

  /** Without an open id (or with a falsy one) the `openid` field is empty and so not signed. */
  lemma MissingOpenIdUnsigned(m: Merchant, p: Provider, fmt: int -> string, now: int, nonce: string, payOrderId: Value,
                              body: Value, fee: Value, notifyUrl: Value, ip: Value, timeExpire: Value, openId: Value, v: Value)
    requires !Truthy(openId)
    ensures ("openid", v) !in SignPairs(OrderFields(m, p, fmt, now, nonce, payOrderId, body, fee, notifyUrl, ip, timeExpire, openId))
  {
    var f := OrderFields(m, p, fmt, now, nonce, payOrderId, body, fee, notifyUrl, ip, timeExpire, openId);
    OrderFieldFacts(m, p, fmt, now, nonce, payOrderId, body, fee, notifyUrl, ip, timeExpire, openId);
    EntryInToMap(f, ("openid", v));
  }

  /** The default `timeExpire` of 30 makes the order expire 30 seconds after it is built. */
  lemma DefaultExpiryThirtySeconds(m: Merchant, p: Provider, fmt: int -> string, now: int, nonce: string, payOrderId: Value,
                                   body: Value, fee: Value, notifyUrl: Value, ip: Value, openId: Value)
    ensures At(OrderFields(m, p, fmt, now, nonce, payOrderId, body, fee, notifyUrl, ip, VInt(30), openId), "time_expire")
         == VStr(fmt(now + 30))
  {
    OrderFieldFacts(m, p, fmt, now, nonce, payOrderId, body, fee, notifyUrl, ip, VInt(30), openId);
  }

  /** What `paySign` is computed over. */
  function ClientFields(m: Merchant, stamp: int, clientNonce: string, prepayId: Value): PhpArray
  {
    [("appId", m.appId), ("timeStamp", VInt(stamp)), ("nonceStr", VStr(clientNonce)),
     ("package", VStr("prepay_id=" + StrVal(prepayId))), ("signType", VStr(SignType))]
  }

  /** `paySign`: the signature of the client fields. */
  function PaySign(md5: Md5, m: Merchant, stamp: int, clientNonce: string, prepayId: Value): string
  {
    GetSign(md5, m, ClientFields(m, stamp, clientNonce, prepayId))
  }

  /**
   * The parameters handed to the page, given their `paySign`: `timeStamp`
   * renamed to `timestamp` and `appId` dropped, both after signing.
   */
  function ClientParameters(paySign: string, stamp: int, clientNonce: string, prepayId: Value): PhpArray
  {
    [("nonceStr", VStr(clientNonce)), ("package", VStr("prepay_id=" + StrVal(prepayId))), ("signType", VStr(SignType)),
     ("paySign", VStr(paySign)), ("timestamp", VInt(stamp))]
  }

  /** The page gets no `appId` and no `timeStamp`: the returned keys, in order. */
  lemma ClientParameterKeys(paySign: string, stamp: int, clientNonce: string, prepayId: Value)
    ensures Keys(ClientParameters(paySign, stamp, clientNonce, prepayId)) == ["nonceStr", "package", "signType", "paySign", "timestamp"]
  {
  }

  /** Yet both `appId` and `timeStamp` were signed: the signed keys, in order. */
  lemma ClientFieldKeys(m: Merchant, stamp: int, clientNonce: string, prepayId: Value)
    ensures Keys(ClientFields(m, stamp, clientNonce, prepayId)) == ["appId", "timeStamp", "nonceStr", "package", "signType"]
  {
  }

  /** The returned `timestamp` is the `timeStamp` that was signed. */
  lemma ClientTimestampCopied(paySign: string, m: Merchant, stamp: int, clientNonce: string, prepayId: Value)
    ensures At(ClientParameters(paySign, stamp, clientNonce, prepayId), "timestamp") == At(ClientFields(m, stamp, clientNonce, prepayId), "timeStamp")
  {
    AtIndex(ClientParameters(paySign, stamp, clientNonce, prepayId), 4);
    AtIndex(ClientFields(m, stamp, clientNonce, prepayId), 1);
  }

  // The four in-place steps of `_buildPrepayQueryParameters`, on arrays of the shape they meet.

  lemma PaySignAppended(d: PhpArray, a: Value, t: Value, n: Value, p: Value, s: Value, sign: Value)
    requires d == [("appId", a), ("timeStamp", t), ("nonceStr", n), ("package", p), ("signType", s)]
    ensures Set(d, "paySign", sign) == [("appId", a), ("timeStamp", t), ("nonceStr", n), ("package", p), ("signType", s), ("paySign", sign)]
    ensures At(Set(d, "paySign", sign), "timeStamp") == t
  {
    SetFresh(d, "paySign", sign);
    AtIndex(Set(d, "paySign", sign), 1);
  }

  lemma TimestampAppended(d: PhpArray, a: Value, t: Value, n: Value, p: Value, s: Value, sign: Value)
    requires d == [("appId", a), ("timeStamp", t), ("nonceStr", n), ("package", p), ("signType", s), ("paySign", sign)]
    ensures Set(d, "timestamp", t)
         == [("appId", a), ("timeStamp", t), ("nonceStr", n), ("package", p), ("signType", s), ("paySign", sign), ("timestamp", t)]
  {
    SetFresh(d, "timestamp", t);
  }

  lemma TimeStampRemoved(d: PhpArray, a: Value, t: Value, n: Value, p: Value, s: Value, sign: Value)
    requires d == [("appId", a), ("timeStamp", t), ("nonceStr", n), ("package", p), ("signType", s), ("paySign", sign), ("timestamp", t)]
    ensures Unset(d, "timeStamp") == [("appId", a), ("nonceStr", n), ("package", p), ("signType", s), ("paySign", sign), ("timestamp", t)]
  {
    var x := [("appId", a)];
    var y := [("nonceStr", n), ("package", p), ("signType", s), ("paySign", sign), ("timestamp", t)];
    assert x + y == [("appId", a), ("nonceStr", n), ("package", p), ("signType", s), ("paySign", sign), ("timestamp", t)];
    assert d == x + [("timeStamp", t)] + y;
    UnsetBetween(d, x, ("timeStamp", t), y, "timeStamp");
  }

  lemma AppIdRemoved(d: PhpArray, a: Value, t: Value, n: Value, p: Value, s: Value, sign: Value)
    requires d == [("appId", a), ("nonceStr", n), ("package", p), ("signType", s), ("paySign", sign), ("timestamp", t)]
    ensures Unset(d, "appId") == [("nonceStr", n), ("package", p), ("signType", s), ("paySign", sign), ("timestamp", t)]
  {
    var y := [("nonceStr", n), ("package", p), ("signType", s), ("paySign", sign), ("timestamp", t)];
    assert d == [] + [("appId", a)] + y;
    UnsetBetween(d, [], ("appId", a), y, "appId");
  }

  /** `_buildPrepayQueryParameters`, step by step: check, sign, copy the stamp, drop two keys. */
  method BuildPrepayQueryParameters(md5: Md5, m: Merchant, stamp: int, clientNonce: string, prepayId: Value)
    returns (r: Result<PhpArray, PayError>)
    ensures r.Err? <==> !Truthy(prepayId)
    ensures r.Err? ==> r.error == PrepayError(InvalidPrepayId)
    ensures r.Ok? ==> r.value == ClientParameters(PaySign(md5, m, stamp, clientNonce, prepayId), stamp, clientNonce, prepayId)
  {
    if !Truthy(prepayId) {
      return Err(PrepayError(InvalidPrepayId));
    }
    var data := ClientFields(m, stamp, clientNonce, prepayId);
    var sign := VStr(GetSign(md5, m, data));
    ghost var a, t, n, p, s := m.appId, VInt(stamp), VStr(clientNonce), VStr("prepay_id=" + StrVal(prepayId)), VStr(SignType);
    PaySignAppended(data, a, t, n, p, s, sign);
    data := Set(data, "paySign", sign);
    TimestampAppended(data, a, t, n, p, s, sign);
    data := Set(data, "timestamp", At(data, "timeStamp"));
    TimeStampRemoved(data, a, t, n, p, s, sign);
    data := Unset(data, "timeStamp");
    AppIdRemoved(data, a, t, n, p, s, sign);
    data := Unset(data, "appId");
    return Ok(data);
  }

  /**
   * `buildOrder`: post the signed order; a rejected reply is the result,
   * otherwise the reply together with the client parameters built from its
   * `prepay_id`.
   */
  method BuildOrder(md5: Md5, post: Post, fmt: int -> string, m: Merchant, p: Provider, now: int, nonce: string,
                    stamp: int, clientNonce: string, payOrderId: Value, body: Value, fee: Value, notifyUrl: Value, ip: Value,
                    timeExpire: Value := VInt(30), openId: Value := VStr(""))
    returns (r: Result<(PhpArray, PhpArray), PayError>)
    ensures var parsed := ParseReply(post(UnifiedOrderUrl, OrderRequest(md5, m, p, fmt, now, nonce, payOrderId, body, fee, notifyUrl, ip, timeExpire, openId)));
      (parsed.Err? ==> r == Err(parsed.error)) &&
      (parsed.Ok? && !Truthy(At(parsed.value, "prepay_id")) ==> r == Err(PrepayError(InvalidPrepayId))) &&
      (parsed.Ok? && Truthy(At(parsed.value, "prepay_id")) ==>
        r == Ok((parsed.value, ClientParameters(PaySign(md5, m, stamp, clientNonce, At(parsed.value, "prepay_id")), stamp, clientNonce, At(parsed.value, "prepay_id")))))
  {
    var data := OrderFields(m, p, fmt, now, nonce, payOrderId, body, fee, notifyUrl, ip, timeExpire, openId);
    data := Set(data, "sign", VStr(GetSign(md5, m, data)));
    var response := ParseReply(post(UnifiedOrderUrl, data));
    if response.Err? {
      return Err(response.error);
    }
    var prepay := BuildPrepayQueryParameters(md5, m, stamp, clientNonce, At(response.value, "prepay_id"));
    if prepay.Err? {
      return Err(prepay.error);
    }
    return Ok((response.value, prepay.value));
  }
}
