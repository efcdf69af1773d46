/**
 * `WeChatPay`, the base of every payment variant: the configuration check
 * of its constructor, request signing (`getSign`), signature checking
 * (`verifyData`), the gateway's two-level status check
 * (`parseResponseResult`), payment notifications (`notify`) and refunds.
 *
 * MD5 is a parameter `md5`; the transport is a parameter `post` that
 * returns the already decoded reply of the gateway.
 */
module WeChatPay {
  import opened Wrappers
  import opened PhpText
  import opened PhpArray
  import opened PayAbstract

  /** What a payment object holds once constructed; nothing changes these afterwards. */
  datatype Merchant = Merchant(appId: Value, partnerId: Value, appKey: Value, certFilePath: Value, keyFilePath: Value)

  /** The service-provider and sub-merchant ids the JSAPI and card-swipe variants read. */
  datatype Provider = Provider(mchId: Value, subMchId: Value, subAppId: Value)

  /** The exceptions the payment code throws. */
  datatype PayError =
    | ArgumentError(message: string)  // ArgumentException
    | ParamError(detail: Value)       // ParamException, carrying a gateway field (null when absent)
    | PrepayError(message: string)    // the plain Exception about the prepay id
    | TransportError(message: string) // the HTTP exchange itself failed

  /** What the transport gives back: the gateway's reply, decoded, or a failure. */
  datatype Reply = Delivered(body: PhpArray) | PostFailed(message: string)

  type Md5 = string -> string
  type Post = (string, PhpArray) -> Reply

  const InvalidConfig := "Invalid config array."
  const MissingSign := "sign签名不存在或为空"
  const BadSignature := "签名无效"
  const InvalidParams := "参数无效"
  const InvalidPrepayId := "Invalid prepayId."
  const RefundEndpoint := "secapi/pay/refund"

  /** A real MD5: every digest is 32 hexadecimal characters. */
  ghost predicate DigestShaped(md5: Md5)
  {
    forall s :: |md5(s)| == 32
  }

  /** The constructor: `app_id`, `partner_id` and `app_key` must be set; the certificate paths default to "". */
  function Configure(config: PhpArray): (r: Result<Merchant, PayError>)
    ensures r.Err? <==> !Isset(config, "app_id") || !Isset(config, "partner_id") || !Isset(config, "app_key")
    ensures r.Err? ==> r.error == ArgumentError(InvalidConfig)
    ensures r.Ok? ==> r.value.appId == At(config, "app_id")
    ensures r.Ok? ==> r.value.partnerId == At(config, "partner_id") && r.value.appKey == At(config, "app_key")
    ensures r.Ok? ==> r.value.appId != VNull && r.value.partnerId != VNull && r.value.appKey != VNull
    ensures r.Ok? && !Isset(config, "cert_file_path") ==> r.value.certFilePath == VStr("")
    ensures r.Ok? && Isset(config, "cert_file_path") ==> r.value.certFilePath == At(config, "cert_file_path")
    ensures r.Ok? && !Isset(config, "key_file_path") ==> r.value.keyFilePath == VStr("")
    ensures r.Ok? && Isset(config, "key_file_path") ==> r.value.keyFilePath == At(config, "key_file_path")
  {
    if !Isset(config, "app_id") || !Isset(config, "partner_id") || !Isset(config, "app_key") then
      Err(ArgumentError(InvalidConfig))
    else
      Ok(Merchant(
        At(config, "app_id"), At(config, "partner_id"), At(config, "app_key"),
        if Isset(config, "cert_file_path") then At(config, "cert_file_path") else VStr(""),
        if Isset(config, "key_file_path") then At(config, "key_file_path") else VStr("")))
  }

  /** The text that is hashed: the signing string, then `&key=` and the merchant key. */
  function SignInput(m: Merchant, params: PhpArray): string
  {
    BuildSignQueryString(params) + "&key=" + StrVal(m.appKey)
  }

  /** `getSign`: the upper-cased MD5 of the signing string with the key appended. */
  function GetSign(md5: Md5, m: Merchant, params: PhpArray): (r: string)
    ensures |r| == |md5(SignInput(m, params))|
    ensures forall i :: 0 <= i < |r| ==> !('a' <= r[i] <= 'z')
    ensures forall i :: 0 <= i < |r| && !('a' <= md5(SignInput(m, params))[i] <= 'z') ==> r[i] == md5(SignInput(m, params))[i]
  {
    Upper(md5(SignInput(m, params)))
  }

  /** The signature does not depend on the order in which the fields were written. */
  lemma GetSignOrderIrrelevant(md5: Md5, m: Merchant, a: PhpArray, b: PhpArray)
    requires ToMap(a) == ToMap(b)
    ensures GetSign(md5, m, a) == GetSign(md5, m, b)
  {
    OrderIrrelevant(a, b);
  }

  /** Adding a field whose value is falsy, or removing one, does not change the signature. */
  lemma GetSignIgnoresFalsy(md5: Md5, m: Merchant, a: PhpArray, k: string, v: Value)
    ensures k !in ToMap(a) && !Truthy(v) ==> GetSign(md5, m, Set(a, k, v)) == GetSign(md5, m, a)
    ensures !Truthy(At(a, k)) ==> GetSign(md5, m, Unset(a, k)) == GetSign(md5, m, a)
  {
    if k !in ToMap(a) && !Truthy(v) {
      FalsyFieldIgnored(a, k, v);
    }
    if !Truthy(At(a, k)) {
      FalsyFieldRemoved(a, k);
    }
  }

  /** With a real MD5 every signature is a truthy string, so it survives `array_filter` and the emptiness check. */
  lemma SignatureTruthy(md5: Md5, m: Merchant, params: PhpArray)
    requires DigestShaped(md5)
    ensures Truthy(VStr(GetSign(md5, m, params)))
  {
    assert |GetSign(md5, m, params)| == 32;
  }

  /** `verifyData`: an absent or empty `sign` is an error; otherwise it says whether `sign` matches the other fields. */
  function VerifyData(md5: Md5, m: Merchant, d: PhpArray): (r: Result<bool, PayError>)
    ensures r.Err? <==> !Truthy(At(d, "sign"))
    ensures r.Err? ==> r.error == ArgumentError(MissingSign)
    ensures r.Ok? ==> (r.value <==> At(d, "sign") == VStr(GetSign(md5, m, Unset(d, "sign"))))
  {
    if !Truthy(At(d, "sign")) then Err(ArgumentError(MissingSign))
    else Ok(VStr(GetSign(md5, m, Unset(d, "sign"))) == At(d, "sign"))
  }

  /** `$data['sign'] = $this->getSign($data)`: `sign` is set to the signature of the fields as they were. */
  function Signed(md5: Md5, m: Merchant, fields: PhpArray): (r: PhpArray)
    ensures At(r, "sign") == VStr(GetSign(md5, m, fields))
    ensures forall k :: k != "sign" ==> At(r, k) == At(fields, k)
    ensures "sign" !in ToMap(fields) ==> r == fields + [("sign", VStr(GetSign(md5, m, fields)))]
  {
    Set(fields, "sign", VStr(GetSign(md5, m, fields)))
  }

  /** Signing fields that have no `sign` appends it last, and removing it again gives the fields back. */
  lemma SignedAppends(md5: Md5, m: Merchant, fields: PhpArray)
    requires "sign" !in ToMap(fields)
    ensures Keys(Signed(md5, m, fields)) == Keys(fields) + ["sign"]
    ensures Unset(Signed(md5, m, fields), "sign") == fields
  {
    SetNewKey(fields, "sign", VStr(GetSign(md5, m, fields)));
    UnsetAppended(fields, "sign", VStr(GetSign(md5, m, fields)));
  }

  /**
   * For fields without `sign`, attaching a non-empty candidate signature `t`
   * and verifying accepts exactly when `t` is the signature of the fields.
   */
  lemma VerifyIffSignature(md5: Md5, m: Merchant, fields: PhpArray, t: string)
    requires "sign" !in ToMap(fields)
    requires Truthy(VStr(t))
    ensures VerifyData(md5, m, Set(fields, "sign", VStr(t))) == Ok(t == GetSign(md5, m, fields))
  {
    UnsetAppended(fields, "sign", VStr(t));
  }

  /** Signing and then verifying succeeds. */
  lemma SignThenVerify(md5: Md5, m: Merchant, fields: PhpArray)
    requires DigestShaped(md5)
    requires "sign" !in ToMap(fields)
    ensures VerifyData(md5, m, Signed(md5, m, fields)) == Ok(true)
  {
    SignatureTruthy(md5, m, fields);
    VerifyIffSignature(md5, m, fields, GetSign(md5, m, fields));
  }

  /** Replacing the signature by any other non-empty string makes verification fail. */
  lemma TamperedSignatureRejected(md5: Md5, m: Merchant, fields: PhpArray, t: string)
    requires "sign" !in ToMap(fields)
    requires Truthy(VStr(t)) && t != GetSign(md5, m, fields)
    ensures VerifyData(md5, m, Set(fields, "sign", VStr(t))) == Ok(false)
  {
    VerifyIffSignature(md5, m, fields, t);
  }

  /** Verification does not depend on the order of the received fields. */
  lemma VerifyOrderIrrelevant(md5: Md5, m: Merchant, a: PhpArray, b: PhpArray)
    requires ToMap(a) == ToMap(b)
    ensures VerifyData(md5, m, a) == VerifyData(md5, m, b)
  {
    SameMapSameEntries(a, b);
    SameEntriesSameString(Unset(a, "sign"), Unset(b, "sign"));
  }

  /** PHP's `$v == 'SUCCESS'`: the string itself, or `true`, which equals every non-empty string. */
  predicate IsSuccess(v: Value)
  {
    v == VStr("SUCCESS") || v == VBool(true)
  }

  /** `parseResponseResult`: the gateway's reply is accepted only when both status codes say SUCCESS. */
  function ParseResponseResult(d: PhpArray): (r: Result<PhpArray, PayError>)
    ensures r.Ok? <==> IsSuccess(At(d, "return_code")) && IsSuccess(At(d, "result_code"))
    ensures r.Ok? ==> r.value == d
    ensures !Isset(d, "return_code") ==> r == Err(ParamError(VStr(InvalidParams)))
    ensures Isset(d, "return_code") && !IsSuccess(At(d, "return_code")) ==> r == Err(ParamError(At(d, "return_msg")))
    ensures IsSuccess(At(d, "return_code")) && !IsSuccess(At(d, "result_code")) ==> r == Err(ParamError(At(d, "err_code")))
  {
    if d == [] || !Isset(d, "return_code") then Err(ParamError(VStr(InvalidParams)))
    else if IsSuccess(At(d, "return_code")) then
      if IsSuccess(At(d, "result_code")) then Ok(d) else Err(ParamError(At(d, "err_code")))
    else Err(ParamError(At(d, "return_msg")))
  }

  /** When the transport-level code is not SUCCESS, `result_code` is never looked at. */
  lemma ResultCodeIgnoredOnReturnFailure(d: PhpArray, x: Value)
    requires !IsSuccess(At(d, "return_code"))
    ensures ParseResponseResult(Set(d, "result_code", x)) == ParseResponseResult(d)
  {
    var e := Set(d, "result_code", x);
    assert At(e, "return_code") == At(d, "return_code");
    assert At(e, "return_msg") == At(d, "return_msg");
  }

  /** A transport failure, or the status check of the decoded reply. */
  function ParseReply(reply: Reply): (r: Result<PhpArray, PayError>)
    ensures reply.PostFailed? ==> r == Err(TransportError(reply.message))
    ensures reply.Delivered? ==> r == ParseResponseResult(reply.body)
  {
    match reply
    case PostFailed(msg) => Err(TransportError(msg))
    case Delivered(body) => ParseResponseResult(body)
  }

  /** `notify`: a payment notification is checked for business success first and for its signature second. */
  function Notify(md5: Md5, m: Merchant, d: PhpArray): (r: Result<PhpArray, PayError>)
    ensures ParseResponseResult(d).Err? ==> r == ParseResponseResult(d)
    ensures r.Ok? <==> ParseResponseResult(d).Ok? && VerifyData(md5, m, d) == Ok(true)
    ensures r.Ok? ==> r.value == d
    ensures ParseResponseResult(d).Ok? && VerifyData(md5, m, d) == Ok(false) ==> r == Err(ArgumentError(BadSignature))
    ensures ParseResponseResult(d).Ok? && VerifyData(md5, m, d).Err? ==> r == Err(ArgumentError(MissingSign))
  {
    match ParseResponseResult(d)
    case Err(e) => Err(e)
    case Ok(data) =>
      match VerifyData(md5, m, data)
      case Err(e) => Err(e)
      case Ok(valid) => if valid then Ok(data) else Err(ArgumentError(BadSignature))
  }

  /** A successful notification that the gateway signed with this merchant's key is accepted unchanged. */
  lemma NotifyAcceptsSigned(md5: Md5, m: Merchant, fields: PhpArray)
    requires DigestShaped(md5)
    requires "sign" !in ToMap(fields)
    requires IsSuccess(At(fields, "return_code")) && IsSuccess(At(fields, "result_code"))
    ensures Notify(md5, m, Signed(md5, m, fields)) == Ok(Signed(md5, m, fields))
  {
    SignThenVerify(md5, m, fields);
  }

  /**
   * The refund request before signing. `appid`, `mch_id` and `op_user_id`
   * read properties the constructor never sets, so they are null.
   */
  function RefundFields(payOrderId: Value, refundFee: Value, totalFee: Value, transactionId: Value): PhpArray
  {
    [("appid", VNull), ("mch_id", VNull), ("op_user_id", VNull), ("nonce_str", VStr("")),
     ("out_refund_no", payOrderId), ("out_trade_no", payOrderId), ("refund_fee", refundFee),
     ("total_fee", totalFee), ("transaction_id", transactionId)]
  }

  /** The last five refund fields carry the order data: ids, amounts and the transaction id. */
  lemma RefundDataKeys(payOrderId: Value, refundFee: Value, totalFee: Value, transactionId: Value)
    ensures Keys(RefundFields(payOrderId, refundFee, totalFee, transactionId)[4..])
         == ["out_refund_no", "out_trade_no", "refund_fee", "total_fee", "transaction_id"]
  {
  }

  /**
   * Only the order data enters a refund's signature: the merchant ids, the
   * operator and the nonce are all falsy and are filtered out, and both
   * order-number fields carry the pay order id.
   */
  lemma RefundSignsOnlyOrderData(payOrderId: Value, refundFee: Value, totalFee: Value, transactionId: Value, e: Entry)
    requires e in SignPairs(RefundFields(payOrderId, refundFee, totalFee, transactionId))
    ensures e in RefundFields(payOrderId, refundFee, totalFee, transactionId)[4..]
    ensures e.0 == "out_refund_no" || e.0 == "out_trade_no" ==> e.1 == payOrderId
  {
    var f := RefundFields(payOrderId, refundFee, totalFee, transactionId);
    RefundHeadFalsy(payOrderId, refundFee, totalFee, transactionId);
    FalsyPrefixUnsigned(f, 4, e);
    SignedPairIff(f, e.0, e.1);
    RefundOrderNumbers(payOrderId, refundFee, totalFee, transactionId);
  }

  lemma RefundHeadFalsy(payOrderId: Value, refundFee: Value, totalFee: Value, transactionId: Value)
    ensures forall i :: 0 <= i < 4 ==> !Truthy(RefundFields(payOrderId, refundFee, totalFee, transactionId)[i].1)
  {
  }

  lemma RefundOrderNumbers(payOrderId: Value, refundFee: Value, totalFee: Value, transactionId: Value)
    ensures At(RefundFields(payOrderId, refundFee, totalFee, transactionId), "out_refund_no") == payOrderId
    ensures At(RefundFields(payOrderId, refundFee, totalFee, transactionId), "out_trade_no") == payOrderId
  {
    AtIndex(RefundFields(payOrderId, refundFee, totalFee, transactionId), 4);
    AtIndex(RefundFields(payOrderId, refundFee, totalFee, transactionId), 5);
  }

  /** `refund`: sign the request, append `sign`, post it, and report success unless the reply is rejected. */
  method Refund(md5: Md5, post: Post, m: Merchant, payOrderId: Value, refundFee: Value, totalFee: Value, transactionId: Value)
    returns (r: Result<bool, PayError>)
    ensures var reply := ParseReply(post(RefundEndpoint, Signed(md5, m, RefundFields(payOrderId, refundFee, totalFee, transactionId))));
      (r.Ok? <==> reply.Ok?) && (r.Ok? ==> r.value) && (r.Err? ==> r.error == reply.error)
  {
    var data := RefundFields(payOrderId, refundFee, totalFee, transactionId);
    data := Set(data, "sign", VStr(GetSign(md5, m, data)));
    var parsed := ParseReply(post(RefundEndpoint, data));
    if parsed.Err? {
      return Err(parsed.error);
    }
    return Ok(true);
  }
}
