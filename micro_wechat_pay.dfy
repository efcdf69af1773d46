/**
 * `MicroWeChatPay`: paying with a code scanned from the customer's phone,
 * and querying or reversing such an order.
 *
 * Each operation builds its request step by step: the fixed fields, then
 * the sub-merchant fields (and for query and reverse the transaction id)
 * only when they are truthy, then `sign` over what was built. `nonce`
 * stands for `buildNonce(16)`; the reply of the transport `post` is taken
 * as already decoded.
 */
module MicroWeChatPay {
  import opened Wrappers
  import opened PhpArray
  import opened WeChatPay

  const MicroPayUrl := "https://api.mch.weixin.qq.com/pay/micropay"
  const OrderQueryUrl := "https://api.mch.weixin.qq.com/pay/orderquery"
  const ReverseUrl := "https://api.mch.weixin.qq.com/secapi/pay/reverse"

  /** `$v && $data[k] = $v`: the field is written only when its value is truthy. */
  function Optional(a: PhpArray, k: string, v: Value): (r: PhpArray)
    ensures forall j :: j in ToMap(r) <==> j in ToMap(a) || (j == k && Truthy(v))
    ensures forall j :: j != k ==> At(r, j) == At(a, j)
    ensures Truthy(v) ==> At(r, k) == v
    ensures !Truthy(v) ==> r == a
    ensures Truthy(v) && k !in ToMap(a) ==> r == a + [(k, v)]
  {
    if Truthy(v) then Set(a, k, v) else a
  }

  /** The sub-merchant fields, each written only when configured. */
  function WithSubMerchant(a: PhpArray, p: Provider): (r: PhpArray)
    ensures "sub_appid" !in ToMap(a) ==> ("sub_appid" in ToMap(r) <==> Truthy(p.subAppId))
    ensures "sub_mch_id" !in ToMap(a) ==> ("sub_mch_id" in ToMap(r) <==> Truthy(p.subMchId))
    ensures forall j :: j != "sub_appid" && j != "sub_mch_id" ==> (j in ToMap(r) <==> j in ToMap(a))
    ensures forall j :: j != "sub_appid" && j != "sub_mch_id" ==> At(r, j) == At(a, j)
    ensures Truthy(p.subAppId) ==> At(r, "sub_appid") == p.subAppId
    ensures Truthy(p.subMchId) ==> At(r, "sub_mch_id") == p.subMchId
  {
    Optional(Optional(a, "sub_appid", p.subAppId), "sub_mch_id", p.subMchId)
  }

  /** The fixed fields of `pay`. */
  function PayFields(m: Merchant, p: Provider, nonce: string, payOrderId: Value, body: Value, fee: Value,
                     authCode: Value, ip: Value): PhpArray
  {
    [("appid", m.appId), ("mch_id", p.mchId), ("nonce_str", VStr(nonce)), ("body", body),
     ("out_trade_no", payOrderId), ("total_fee", VInt(IntCast(fee))), ("spbill_create_ip", ip),
     ("auth_code", authCode)]
  }

  lemma PayFieldKeys(m: Merchant, p: Provider, nonce: string, payOrderId: Value, body: Value, fee: Value,
                     authCode: Value, ip: Value)
    ensures Keys(PayFields(m, p, nonce, payOrderId, body, fee, authCode, ip))
         == ["appid", "mch_id", "nonce_str", "body", "out_trade_no", "total_fee", "spbill_create_ip", "auth_code"]
  {
  }

  /** None of the keys written later is among the fixed `pay` fields. */
  lemma PayFieldsLeaveRoom(m: Merchant, p: Provider, nonce: string, payOrderId: Value, body: Value, fee: Value,
                           authCode: Value, ip: Value)
    ensures "sub_appid" !in ToMap(PayFields(m, p, nonce, payOrderId, body, fee, authCode, ip))
    ensures "sub_mch_id" !in ToMap(PayFields(m, p, nonce, payOrderId, body, fee, authCode, ip))
    ensures "sign" !in ToMap(PayFields(m, p, nonce, payOrderId, body, fee, authCode, ip))
  {
    var f := PayFields(m, p, nonce, payOrderId, body, fee, authCode, ip);
    KeyAbsent(f, "sub_appid");
    KeyAbsent(f, "sub_mch_id");
    KeyAbsent(f, "sign");
  }

  lemma PayFieldFacts(m: Merchant, p: Provider, nonce: string, payOrderId: Value, body: Value, fee: Value,
                      authCode: Value, ip: Value)
    ensures At(PayFields(m, p, nonce, payOrderId, body, fee, authCode, ip), "total_fee") == VInt(IntCast(fee))
    ensures At(PayFields(m, p, nonce, payOrderId, body, fee, authCode, ip), "auth_code") == authCode
    ensures At(PayFields(m, p, nonce, payOrderId, body, fee, authCode, ip), "out_trade_no") == payOrderId
  {
    var f := PayFields(m, p, nonce, payOrderId, body, fee, authCode, ip);
    AtIndex(f, 4);
    AtIndex(f, 5);
    AtIndex(f, 7);
  }

  /** The `pay` request before signing. */
  function PayUnsigned(m: Merchant, p: Provider, nonce: string, payOrderId: Value, body: Value, fee: Value,
                       authCode: Value, ip: Value): (r: PhpArray)
    ensures "sub_appid" in ToMap(r) <==> Truthy(p.subAppId)
    ensures "sub_mch_id" in ToMap(r) <==> Truthy(p.subMchId)
    ensures "sign" !in ToMap(r)
    ensures At(r, "total_fee") == VInt(IntCast(fee)) && At(r, "auth_code") == authCode
  {
    var f := PayFields(m, p, nonce, payOrderId, body, fee, authCode, ip);
    PayFieldsLeaveRoom(m, p, nonce, payOrderId, body, fee, authCode, ip);
    PayFieldFacts(m, p, nonce, payOrderId, body, fee, authCode, ip);
    WithSubMerchant(f, p)
  }

  /** The signed `pay` request: the fields as built, then their `sign`. */
  function PayRequest(md5: Md5, m: Merchant, p: Provider, nonce: string, payOrderId: Value, body: Value, fee: Value,
                      authCode: Value, ip: Value): (r: PhpArray)
    ensures Keys(r) == Keys(PayUnsigned(m, p, nonce, payOrderId, body, fee, authCode, ip)) + ["sign"]
    ensures Unset(r, "sign") == PayUnsigned(m, p, nonce, payOrderId, body, fee, authCode, ip)
    ensures At(r, "sign") == VStr(GetSign(md5, m, PayUnsigned(m, p, nonce, payOrderId, body, fee, authCode, ip)))
  {
    var f := PayUnsigned(m, p, nonce, payOrderId, body, fee, authCode, ip);
    SignedAppends(md5, m, f);
    Signed(md5, m, f)
  }

  /** The fixed fields shared by `query` and `reverse`. */
  function LookupFields(m: Merchant, p: Provider, nonce: string, payOrderId: Value): PhpArray
  {
    [("appid", m.appId), ("mch_id", p.mchId), ("out_trade_no", payOrderId), ("nonce_str", VStr(nonce))]
  }

  /** None of the keys written later, nor the `pay`-only ones, is among the fixed lookup fields. */
  lemma LookupFieldsLeaveRoom(m: Merchant, p: Provider, nonce: string, payOrderId: Value)
    ensures "sub_appid" !in ToMap(LookupFields(m, p, nonce, payOrderId))
    ensures "sub_mch_id" !in ToMap(LookupFields(m, p, nonce, payOrderId))
    ensures "transaction_id" !in ToMap(LookupFields(m, p, nonce, payOrderId))
    ensures "sign" !in ToMap(LookupFields(m, p, nonce, payOrderId))
    ensures "total_fee" !in ToMap(LookupFields(m, p, nonce, payOrderId))
    ensures "auth_code" !in ToMap(LookupFields(m, p, nonce, payOrderId))
  {
    var f := LookupFields(m, p, nonce, payOrderId);
    KeyAbsent(f, "sub_appid");
    KeyAbsent(f, "sub_mch_id");
    KeyAbsent(f, "transaction_id");
    KeyAbsent(f, "sign");
    KeyAbsent(f, "total_fee");
    KeyAbsent(f, "auth_code");
  }

  /** The `query`/`reverse` request before signing. */
  function LookupUnsigned(m: Merchant, p: Provider, nonce: string, payOrderId: Value, transactionId: Value): (r: PhpArray)
    ensures "sub_appid" in ToMap(r) <==> Truthy(p.subAppId)
    ensures "sub_mch_id" in ToMap(r) <==> Truthy(p.subMchId)
    ensures "transaction_id" in ToMap(r) <==> Truthy(transactionId)
    ensures Truthy(transactionId) ==> At(r, "transaction_id") == transactionId
    ensures "sign" !in ToMap(r)
    ensures "total_fee" !in ToMap(r) && "auth_code" !in ToMap(r)
  {
    var f := LookupFields(m, p, nonce, payOrderId);
    LookupFieldsLeaveRoom(m, p, nonce, payOrderId);
    Optional(WithSubMerchant(f, p), "transaction_id", transactionId)
  }

  /** The signed `query`/`reverse` request. */
  function LookupRequest(md5: Md5, m: Merchant, p: Provider, nonce: string, payOrderId: Value, transactionId: Value): (r: PhpArray)
    ensures Keys(r) == Keys(LookupUnsigned(m, p, nonce, payOrderId, transactionId)) + ["sign"]
    ensures Unset(r, "sign") == LookupUnsigned(m, p, nonce, payOrderId, transactionId)
    ensures At(r, "sign") == VStr(GetSign(md5, m, LookupUnsigned(m, p, nonce, payOrderId, transactionId)))
  {
    var f := LookupUnsigned(m, p, nonce, payOrderId, transactionId);
    SignedAppends(md5, m, f);
    Signed(md5, m, f)
  }

  /** A signed request passes `verifyData` under the same key. */
  lemma LookupRequestVerifies(md5: Md5, m: Merchant, p: Provider, nonce: string, payOrderId: Value, transactionId: Value)
    requires DigestShaped(md5)
    ensures VerifyData(md5, m, LookupRequest(md5, m, p, nonce, payOrderId, transactionId)) == Ok(true)
  {
    SignThenVerify(md5, m, LookupUnsigned(m, p, nonce, payOrderId, transactionId));
  }

  /** `pay`: build, add the configured sub-merchant fields, sign, post, parse. `options` is never read. */
  method Pay(md5: Md5, post: Post, m: Merchant, p: Provider, nonce: string, payOrderId: Value, body: Value, fee: Value,
             authCode: Value, ip: Value, options: PhpArray := [])
    returns (r: Result<PhpArray, PayError>)
    ensures r == ParseReply(post(MicroPayUrl, PayRequest(md5, m, p, nonce, payOrderId, body, fee, authCode, ip)))
  {
    var data := PayFields(m, p, nonce, payOrderId, body, fee, authCode, ip);
    ghost var fixed := data;
    if Truthy(p.subAppId) {
      data := Set(data, "sub_appid", p.subAppId);
    }
    assert data == Optional(fixed, "sub_appid", p.subAppId);
    if Truthy(p.subMchId) {
      data := Set(data, "sub_mch_id", p.subMchId);
    }
    assert data == PayUnsigned(m, p, nonce, payOrderId, body, fee, authCode, ip);
    data := Set(data, "sign", VStr(GetSign(md5, m, data)));
    r := ParseReply(post(MicroPayUrl, data));
  }

  /** `query`: the lookup request posted to the order-query endpoint. */
  method Query(md5: Md5, post: Post, m: Merchant, p: Provider, nonce: string, payOrderId: Value,
               transactionId: Value := VStr(""))
    returns (r: Result<PhpArray, PayError>)
    ensures r == ParseReply(post(OrderQueryUrl, LookupRequest(md5, m, p, nonce, payOrderId, transactionId)))
  {
    var data := LookupFields(m, p, nonce, payOrderId);
    ghost var fixed := data;
    if Truthy(p.subAppId) {
      data := Set(data, "sub_appid", p.subAppId);
    }
    assert data == Optional(fixed, "sub_appid", p.subAppId);
    if Truthy(p.subMchId) {
      data := Set(data, "sub_mch_id", p.subMchId);
    }
    assert data == WithSubMerchant(fixed, p);
    if Truthy(transactionId) {
      data := Set(data, "transaction_id", transactionId);
    }
    assert data == LookupUnsigned(m, p, nonce, payOrderId, transactionId);
    data := Set(data, "sign", VStr(GetSign(md5, m, data)));
    r := ParseReply(post(OrderQueryUrl, data));
  }

  /** `reverse`: the same request as `query`, posted to the reversal endpoint. */
  method Reverse(md5: Md5, post: Post, m: Merchant, p: Provider, nonce: string, payOrderId: Value,
                 transactionId: Value := VStr(""))
    returns (r: Result<PhpArray, PayError>)
    ensures r == ParseReply(post(ReverseUrl, LookupRequest(md5, m, p, nonce, payOrderId, transactionId)))
  {
    var data := LookupFields(m, p, nonce, payOrderId);
    ghost var fixed := data;
    if Truthy(p.subAppId) {
      data := Set(data, "sub_appid", p.subAppId);
    }
    assert data == Optional(fixed, "sub_appid", p.subAppId);
    if Truthy(p.subMchId) {
      data := Set(data, "sub_mch_id", p.subMchId);
    }
    assert data == WithSubMerchant(fixed, p);
    if Truthy(transactionId) {
      data := Set(data, "transaction_id", transactionId);
    }
    assert data == LookupUnsigned(m, p, nonce, payOrderId, transactionId);
    data := Set(data, "sign", VStr(GetSign(md5, m, data)));
    r := ParseReply(post(ReverseUrl, data));
  }
}
