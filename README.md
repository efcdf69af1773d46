# WeChat payment signing and the third-party platform credential broker

This project models the core of the `leo` PHP library in Dafny and proves properties of the model. The core has two parts.

**Payments** (`src/Pay`). Every request to the WeChat Pay gateway is signed the same way:
- the falsy fields are dropped (`array_filter`);
- the rest are sorted by key (`ksort`);
- they are written as `key=value` pairs joined by `&`, with no escaping;
- `&key=` and the merchant key are appended;
- the MD5 of that text, upper-cased, is the `sign` field.

`verifyData` removes `sign`, signs the rest again and compares. `parseResponseResult` accepts a gateway reply only when `return_code` and `result_code` both say SUCCESS. Four classes build requests on top of this:
- `WeChatPay` itself: `refund` and `notify`;
- `AppWeChatPay`: an in-app order and the client parameters handed to the app;
- `JsApiWeChatPay`: an order from a web page in WeChat, and the `paySign` parameters handed to the JS bridge;
- `MicroWeChatPay`: pay with a scanned code, query and reverse. Each of these adds the sub-merchant fields and the transaction id only when they are truthy.

**The credential broker** (`files/WeiXin.php`). The broker holds four kinds of value in a key/value cache: the platform's verify ticket, the platform's component access token, and each authorized account's refresh token and access token. The verify ticket is only stored, by `setComponentVerifyTicket`. The refresh token is only stored, by `getAuthorizationInfo`. Only the two access tokens are fetched when they are missing or have expired: the request goes to `https://api.weixin.qq.com/cgi-bin/component`, and the answer is cached with its lifetime.

## How the model is built

- `php_array.dfy`: a PHP array is an ordered list of `(key, value)` entries with distinct keys. On it are defined `$a[k] = v` (`Set`: replace in place, or append), `unset`, `array_filter`, `ksort` and the key/value view `ToMap`. Because insertion order is kept, "the order in which the fields were written does not matter" is a real statement.
- `php_text.dfy`: integer to string and back (`intval`), `strtoupper`, and the byte order `ksort` uses on string keys.
- `pay_abstract.dfy`: `buildSignQueryString`.
- `wechat_pay.dfy`: the base class. The merchant is a `Merchant` value, which never changes after construction.
- `app_wechat_pay.dfy`, `jsapi_wechat_pay.dfy`, `micro_wechat_pay.dfy`: the three variants. Each request is built by a pure function. A `method` performs the source's steps in place on the array (`$data['sign'] = …`, `unset(…)`) and is proved equal to that function.
- `weixin.dfy`: the broker.
  - Each operation is a function on a `World`: the cache (key to value and optional expiry moment), a clock, and the log of requests sent.
  - The class `WeiXin` holds the same state in fields. Its methods do the source's steps in order, each updating the fields. Each is proved to leave exactly the state, and give exactly the result, of its function.
  - The lemmas state what the operations promise: what is cached, under which key, for how long, what is sent, and when an error is raised.

Things outside the code are parameters:
- the MD5 function `md5`;
- the payment transport `post` (it returns the decoded reply or a failure);
- the broker transport `remote` (it answers the n-th request with decoded JSON or a failure);
- the clock `now`/`stamp`, the date formatter `fmt` and the nonces.

## Model

| member | source | states |
|---|---|---|
| PhpText.IntToStringRoundTrip | files/WeiXin.php:110 | `intval` of the decimal string of any integer is that integer; this is how `TokenTtlOfDecimal` reads a lifetime sent as text |
| PhpText.Upper | src/Pay/WeChatPay.php:92 | `strtoupper` keeps the length, leaves no lower-case ASCII letter, changes only a-z and shifts those by 32 |
| PhpArray.Set | src/Pay/WeChatPay.php:71 | `$a[k] = v`: the key now maps to v and every other key is unchanged; an existing key keeps its place; a new key is appended last |
| PhpArray.Unset | src/Pay/WeChatPay.php:111 | `unset($a[k])` keeps exactly the entries with other keys; it is the identity when k is absent |
| PhpArray.UnsetAppended | src/Pay/WeChatPay.php:111 | unsetting a key that was just appended gives back the array as it was |
| PhpArray.SetNewKey | src/Pay/WeChatPay.php:71 | writing a new key appends it, and its key, at the end |
| PhpArray.Filter | src/Pay/PayAbstract.php:15 | `array_filter` keeps exactly the entries with truthy values |
| PhpArray.KSort | src/Pay/PayAbstract.php:16 | `ksort` gives a permutation of the entries in strictly ascending key order |
| PhpArray.SortedUnique | src/Pay/PayAbstract.php:16 | two strictly sorted arrays with the same entries are equal, so `ksort`'s result depends only on the entries |
| PhpArray.SameMapSameEntries | src/Pay/PayAbstract.php:16 | arrays with the same key/value view hold the same entries |
| PayAbstract.SignPairs | src/Pay/PayAbstract.php:15-16 | the pairs that are signed: strictly ascending by key, and exactly the truthy entries |
| PayAbstract.SignedPairIff | src/Pay/PayAbstract.php:15-16 | a pair is signed if and only if its key maps to that value and the value is truthy; keys ascend |
| PayAbstract.SignPairsByEntries | src/Pay/PayAbstract.php:15-16 | arrays with the same truthy entries have the same signed pairs |
| PayAbstract.FalsyPrefixUnsigned | src/Pay/PayAbstract.php:15 | when the first n fields are falsy, every signed pair is one of the later fields |
| PayAbstract.FalsyFieldIgnored | src/Pay/PayAbstract.php:15 | adding a field with a falsy value does not change the signing string |
| PayAbstract.FalsyFieldRemoved | src/Pay/PayAbstract.php:15 | removing a field whose value is falsy, or a missing field, does not change the signing string |
| PayAbstract.SameEntriesSameString | src/Pay/PayAbstract.php:15-18 | arrays with the same entries in any order have the same signing string |
| PayAbstract.OrderIrrelevant | src/Pay/PayAbstract.php:15-18 | arrays with the same key/value view have the same signing string |
| PayAbstract.SignItemsVerbatim | src/Pay/PayAbstract.php:18 | each item of the signing string is the key, `=`, and the value as rendered, with nothing escaped |
| PayAbstract.EmptyIffAllFalsy | src/Pay/PayAbstract.php:15-18 | the signing string is empty if and only if no field is truthy |
| PayAbstract.SignStringSplits | src/Pay/PayAbstract.php:18 | when no signed key or value holds `&`, splitting the string at `&` gives back the items, one per signed pair, in key order |
| PayAbstract.SignPairsOfSorted | src/Pay/PayAbstract.php:15-16 | an array that is already sorted and all truthy is signed as it is |
| PayAbstract.OneFieldString | src/Pay/PayAbstract.php:18 | the field `a` = `1&b=2` is written `a=1&b=2` |
| PayAbstract.TwoFieldString | src/Pay/PayAbstract.php:18 | the fields `a` = `1` and `b` = `2` are written `a=1&b=2` |
| PayAbstract.UnescapedValuesCollide | src/Pay/PayAbstract.php:18 | because nothing is escaped, those two different arrays have the same signing string |
| WeChatPay.Configure | src/Pay/WeChatPay.php:32-44 | construction fails with "Invalid config array." exactly when `app_id`, `partner_id` or `app_key` is not set; otherwise those are kept, and each certificate path is kept or defaults to "" |
| WeChatPay.GetSign | src/Pay/WeChatPay.php:88-93 | the signature is the MD5 of the signing string plus `&key=` and the key, upper-cased: the same length, no lower-case letter, other characters kept |
| WeChatPay.GetSignOrderIrrelevant | src/Pay/WeChatPay.php:88-93 | the signature depends only on the key/value view, not on field order |
| WeChatPay.GetSignIgnoresFalsy | src/Pay/WeChatPay.php:88-93 | adding a falsy field, or removing a falsy or missing one, does not change the signature |
| WeChatPay.SignatureTruthy | src/Pay/WeChatPay.php:92 | with a real MD5, a signature is never empty or "0", so it survives `array_filter` and `empty` |
| WeChatPay.VerifyData | src/Pay/WeChatPay.php:104-115 | an absent or empty `sign` is an error with the source's message; otherwise the result says if `sign` equals the signature of the other fields |
| WeChatPay.Signed | src/Pay/WeChatPay.php:71 | `$data['sign'] = getSign($data)`: `sign` holds the signature of the fields as they were, and every other field is unchanged |
| WeChatPay.SignedAppends | src/Pay/WeChatPay.php:71 | signing fields without `sign` appends it last, and unsetting it gives the fields back |
| WeChatPay.VerifyIffSignature | src/Pay/WeChatPay.php:104-115 | a non-empty candidate signature is accepted if and only if it is the signature of the fields |
| WeChatPay.SignThenVerify | src/Pay/WeChatPay.php:104-115 | signing and then verifying with the same key succeeds |
| WeChatPay.TamperedSignatureRejected | src/Pay/WeChatPay.php:110-114 | any other non-empty signature is rejected |
| WeChatPay.VerifyOrderIrrelevant | src/Pay/WeChatPay.php:104-115 | verification does not depend on the order of the received fields |
| WeChatPay.ParseResponseResult | src/Pay/WeChatPay.php:150-167 | a reply is accepted, unchanged, if and only if both codes say SUCCESS; no `return_code` gives "参数无效"; a failed `return_code` gives `return_msg`; a failed `result_code` gives `err_code` |
| WeChatPay.ResultCodeIgnoredOnReturnFailure | src/Pay/WeChatPay.php:156-163 | when `return_code` fails, `result_code` is never read |
| WeChatPay.ParseReply | src/Pay/WeChatPay.php:72-74 | a transport failure is an error; a delivered reply goes through the status check |
| WeChatPay.Notify | src/Pay/WeChatPay.php:126-135 | a notification is accepted unchanged if and only if its status check passes and its signature verifies; a bad signature gives "签名无效"; a status failure is passed on; no signature is checked on a status failure |
| WeChatPay.NotifyAcceptsSigned | src/Pay/WeChatPay.php:126-135 | a successful notification signed with the merchant's key is accepted |
| WeChatPay.RefundDataKeys | src/Pay/WeChatPay.php:65-69 | the last five refund fields are the two order numbers, the two amounts and the transaction id |
| WeChatPay.RefundHeadFalsy | src/Pay/WeChatPay.php:61-64 | `appid`, `mch_id`, `op_user_id` (undefined properties, so null) and the empty nonce are all falsy |
| WeChatPay.RefundOrderNumbers | src/Pay/WeChatPay.php:65-66 | both `out_refund_no` and `out_trade_no` carry the pay order id |
| WeChatPay.RefundSignsOnlyOrderData | src/Pay/WeChatPay.php:60-71 | every signed refund pair is one of those five fields, and an order number signs the pay order id |
| WeChatPay.Refund | src/Pay/WeChatPay.php:58-77 | the signed request is posted to `secapi/pay/refund`; the result is true exactly when the reply is accepted, and otherwise the reply's error |
| AppWeChatPay.ExpiryTime | src/Pay/AppWeChatPay.php:45 | the order expires `timeExpire` minutes from now when that is above 5, otherwise in 15 minutes; always at least 6 minutes ahead |
| AppWeChatPay.OrderFieldKeys | src/Pay/AppWeChatPay.php:46-57 | the order's fields, in the order the source writes them |
| AppWeChatPay.OrderFieldsUnsigned | src/Pay/AppWeChatPay.php:46-57 | the order has no `sign` before signing |
| AppWeChatPay.OrderFieldFacts | src/Pay/AppWeChatPay.php:52-55 | `trade_type` is APP and `total_fee` is the fee cast to int |
| AppWeChatPay.OrderSignatureWithoutNonce | src/Pay/AppWeChatPay.php:49 | the empty nonce never enters the order's signature |
| AppWeChatPay.OrderRequest | src/Pay/AppWeChatPay.php:46-58 | the posted order is the fields with `sign` appended last; removing `sign` gives the fields; `sign` is their signature |
| AppWeChatPay.PrepayFieldKeys | src/Pay/AppWeChatPay.php:82-89 | the client parameters' fields, in order |
| AppWeChatPay.PrepayFieldsUnsigned | src/Pay/AppWeChatPay.php:82-89 | they have no `sign` before signing |
| AppWeChatPay.PrepayFieldFacts | src/Pay/AppWeChatPay.php:85-88 | `prepayid` is the prepay id and `package` is `Sign=WXPay` |
| AppWeChatPay.PrepayParameters | src/Pay/AppWeChatPay.php:76-93 | a falsy prepay id fails with "Invalid prepayId." (if and only if); otherwise the six fields with their `sign` appended |
| AppWeChatPay.PrepayParametersVerify | src/Pay/AppWeChatPay.php:82-92 | the client parameters pass `verifyData` with the same key |
| AppWeChatPay.BuildPrepayQueryParameters | src/Pay/AppWeChatPay.php:76-93 | the in-place steps build exactly `PrepayParameters` |
| AppWeChatPay.BuildOrder | src/Pay/AppWeChatPay.php:43-66 | the signed order is posted; a rejected reply is the error; otherwise the reply together with the client parameters for its `prepay_id`, or the prepay error |
| JsApiWeChatPay.OpenIdField | src/Pay/JsApiWeChatPay.php:59 | `$openId ?: ''` is truthy exactly when the open id is, and then it is the open id |
| JsApiWeChatPay.OrderFieldKeys | src/Pay/JsApiWeChatPay.php:48-61 | the order's twelve fields, in order |
| JsApiWeChatPay.OrderFieldsUnsigned | src/Pay/JsApiWeChatPay.php:48-61 | the order has no `sign` before signing |
| JsApiWeChatPay.OrderFieldFacts | src/Pay/JsApiWeChatPay.php:55-60 | `total_fee` is the fee cast to int, `trade_type` is JSAPI, `openid` is `$openId ?: ''`, `time_expire` formats now plus `timeExpire` seconds |
| JsApiWeChatPay.OrderRequest | src/Pay/JsApiWeChatPay.php:48-62 | the posted order is the fields with their `sign` appended last |
| JsApiWeChatPay.MissingOpenIdUnsigned | src/Pay/JsApiWeChatPay.php:59 | with a falsy open id the `openid` field is never signed |
| JsApiWeChatPay.DefaultExpiryThirtySeconds | src/Pay/JsApiWeChatPay.php:46 | the default `timeExpire` of 30 expires the order 30 seconds later |
| JsApiWeChatPay.ClientFieldKeys | src/Pay/JsApiWeChatPay.php:86-92 | `paySign` is computed over `appId`, `timeStamp`, `nonceStr`, `package`, `signType` |
| JsApiWeChatPay.ClientParameterKeys | src/Pay/JsApiWeChatPay.php:93-96 | the page receives `nonceStr`, `package`, `signType`, `paySign`, `timestamp`: neither `appId` nor `timeStamp` |
| JsApiWeChatPay.ClientTimestampCopied | src/Pay/JsApiWeChatPay.php:94 | the returned `timestamp` is the signed `timeStamp` |
| JsApiWeChatPay.PaySignAppended | src/Pay/JsApiWeChatPay.php:93 | writing `paySign` appends it after the five signed fields |
| JsApiWeChatPay.TimestampAppended | src/Pay/JsApiWeChatPay.php:94 | copying the stamp appends `timestamp` last |
| JsApiWeChatPay.TimeStampRemoved | src/Pay/JsApiWeChatPay.php:95 | unsetting `timeStamp` drops just that entry |
| JsApiWeChatPay.AppIdRemoved | src/Pay/JsApiWeChatPay.php:96 | unsetting `appId` drops just that entry |
| JsApiWeChatPay.BuildPrepayQueryParameters | src/Pay/JsApiWeChatPay.php:80-99 | a falsy prepay id fails with "Invalid prepayId." (if and only if); otherwise the result is the five page parameters carrying the `paySign` of the signed fields |
| JsApiWeChatPay.BuildOrder | src/Pay/JsApiWeChatPay.php:46-70 | the signed order is posted; a rejected reply is the error; a falsy `prepay_id` is the prepay error; otherwise the reply with the page parameters |
| MicroWeChatPay.Optional | src/Pay/MicroWeChatPay.php:32 | `$v && $data[k] = $v`: the key is present afterwards exactly when it was before or the value is truthy; other keys are unchanged; a falsy value leaves the array as it was |
| MicroWeChatPay.WithSubMerchant | src/Pay/MicroWeChatPay.php:32-33 | `sub_appid` and `sub_mch_id` are present exactly when configured truthy, with the configured values; nothing else changes |
| MicroWeChatPay.PayFieldKeys | src/Pay/MicroWeChatPay.php:22-31 | the fixed `pay` fields, in order |
| MicroWeChatPay.PayFieldsLeaveRoom | src/Pay/MicroWeChatPay.php:22-31 | none of `sub_appid`, `sub_mch_id`, `sign` is among them |
| MicroWeChatPay.PayFieldFacts | src/Pay/MicroWeChatPay.php:27-30 | `total_fee` is the fee cast to int; `auth_code` and `out_trade_no` are the arguments |
| MicroWeChatPay.PayUnsigned | src/Pay/MicroWeChatPay.php:22-33 | each sub-merchant field is present exactly when configured truthy; no `sign`; the fee and the auth code |
| MicroWeChatPay.PayRequest | src/Pay/MicroWeChatPay.php:22-34 | the request is those fields with `sign` appended last, signed over them |
| MicroWeChatPay.LookupFieldsLeaveRoom | src/Pay/MicroWeChatPay.php:51-56 | the fixed query fields contain none of the optional keys, no `sign`, and none of the `pay`-only keys |
| MicroWeChatPay.LookupUnsigned | src/Pay/MicroWeChatPay.php:51-59 | the sub-merchant fields and `transaction_id` are present exactly when truthy, with their values; no `sign`, `total_fee` or `auth_code` |
| MicroWeChatPay.LookupRequest | src/Pay/MicroWeChatPay.php:51-60 | the request is those fields with `sign` appended last, signed over them |
| MicroWeChatPay.LookupRequestVerifies | src/Pay/MicroWeChatPay.php:60 | the signed query passes `verifyData` under the same key |
| MicroWeChatPay.Pay | src/Pay/MicroWeChatPay.php:20-38 | the in-place steps post exactly `PayRequest` to the micropay URL, and the result is the status check of the reply |
| MicroWeChatPay.Query | src/Pay/MicroWeChatPay.php:49-64 | the in-place steps post exactly `LookupRequest` to the order-query URL, and the result is the status check of the reply |
| MicroWeChatPay.Reverse | src/Pay/MicroWeChatPay.php:75-90 | the same request, posted to the reversal URL |
| WeiXinPlatform.Field | files/WeiXin.php:103-113 | `$data[k]`: null on a non-array; a non-null result is an entry of the array under k |
| WeiXinPlatform.CacheGet | files/WeiXin.php:277 | a missing or expired key reads null; a live one reads its value |
| WeiXinPlatform.CachePut | files/WeiXin.php:275 | the key holds the value, with expiry now + `expired` or none when null; every other key reads as before; the clock and the log are unchanged |
| WeiXinPlatform.Send | files/WeiXin.php:279-303 | the request goes to the base URL plus the path and is logged whatever comes back; a failed transfer is a transport error, otherwise the decoded body |
| WeiXinPlatform.TokenTtl | files/WeiXin.php:110 | a token's lifetime is `intval(expires_in) - 100` when `expires_in` is set, otherwise 3600 |
| WeiXinPlatform.InfoTtl | files/WeiXin.php:195 | the same rule, with a truthiness test on `expires_in` |
| WeiXinPlatform.CacheKeysDistinct | files/WeiXin.php:10-13 | keys from different templates never coincide, whatever the ids |
| WeiXinPlatform.CacheKeysInjective | files/WeiXin.php:10-13 | for each template, equal keys if and only if equal ids |
| WeiXinPlatform.NoExpiryOutlivesClock | files/WeiXin.php:275 | an entry stored with no expiry is read back at every later moment |
| WeiXinPlatform.LifetimeRunsOut | files/WeiXin.php:275 | an entry stored for t seconds is read back exactly while fewer than t seconds have passed |
| WeiXinPlatform.VerifyTicketNeverExpires | files/WeiXin.php:32-38 | the verify ticket is stored with no lifetime |
| WeiXinPlatform.RefreshTokenNeverExpires | files/WeiXin.php:45-51 | a refresh token is stored with no lifetime |
| WeiXinPlatform.ComponentTokenHit | files/WeiXin.php:124-129 | a live truthy component token is returned; nothing is sent or stored |
| WeiXinPlatform.ComponentTokenMiss | files/WeiXin.php:131-145 | otherwise one request carrying the id, the secret and the cached ticket is sent; a truthy token in the answer is returned and cached for `TokenTtl`; anything else is an error that stores nothing |
| WeiXinPlatform.ComponentTokenWritesOnlyItsKey | files/WeiXin.php:122-146 | fetching the component token never touches another key or the clock |
| WeiXinPlatform.AuthorizerTokenHit | files/WeiXin.php:95-99 | a live truthy authorizer token is returned; nothing is sent or stored |
| WeiXinPlatform.RefreshSendsCachedToken | files/WeiXin.php:69-83 | the refresh request goes out after the component token is known, and carries whatever the cache holds as refresh token, null included |
| WeiXinPlatform.AuthorizerTokenMiss | files/WeiXin.php:101-113 | on a miss: a transport failure or an `errcode` answer is an error that stores nothing more; any other answer's `authorizer_access_token` is returned and cached for `TokenTtl` |
| WeiXinPlatform.ComponentTokenLifecycle | files/WeiXin.php:122-146 | a component token fetched on a miss is then served from the cache with no request for exactly `TokenTtl` seconds; the first call after that sends a new token request |
| WeiXinPlatform.AuthorizerTokenLifecycle | files/WeiXin.php:93-114 | an authorizer token fetched on a miss is then served with no request for exactly `TokenTtl` seconds; after that the refresh request is sent again |
| WeiXinPlatform.TokenTtlOfDecimal | files/WeiXin.php:110 | an `expires_in` sent as the decimal text of n gives a lifetime of n - 100 seconds |
| WeiXinPlatform.PreAuthCodeNotStored | files/WeiXin.php:153-163 | the pre-auth code is never cached, and an answer without it gives "" |
| WeiXinPlatform.AuthorizationInfoRefused | files/WeiXin.php:184-186 | an answer that is not an array with `authorization_info` fails with the source's message and stores nothing |
| WeiXinPlatform.AuthorizationInfoStored | files/WeiXin.php:188-198 | otherwise the refresh token is stored with no lifetime and the access token for `InfoTtl`, both under the authorizer's id; no other key changes; the info is returned as received |
| WeiXinPlatform.TokensStored | files/WeiXin.php:188-196 | storing the two tokens writes exactly those two entries |
| WeiXinPlatform.AuthorizerInfoOutcome | files/WeiXin.php:210-224 | nothing is stored; an `errcode` answer is an error with `errmsg` and `errcode`; otherwise `authorizer_info` is returned |
| WeiXinPlatform.AuthorizerOptionVerbatim | files/WeiXin.php:234-245 | nothing is stored; the decoded answer is returned as it is |
| WeiXinPlatform.UpdateAuthorizerOptionOutcome | files/WeiXin.php:256-273 | nothing is stored; the result says whether the answer's `errcode` is set and loosely equal to 0 |
| WeiXinPlatform.ZeroStringLooseZero | files/WeiXin.php:272 | the string "0" is loosely equal to 0 |
| WeiXinPlatform.OptionAcceptedZero | files/WeiXin.php:272 | `errcode` 0, as a number or as the string "0", is success |
| WeiXinPlatform.OptionRejectedNonzero | files/WeiXin.php:272 | any other number is failure |
| WeiXinPlatform.OptionRejectedEmptyString | files/WeiXin.php:272 | the empty string is failure (PHP 8 comparison) |
| WeiXinPlatform.OptionRejectedWithoutCode | files/WeiXin.php:272 | an answer without `errcode` is failure |
| WeiXinPlatform.WeiXin.constructor | files/WeiXin.php:26-30 | the id and the secret are stored; the cache is the one the subclass provides; nothing has been sent |
| WeiXinPlatform.WeiXin.GetCache | files/WeiXin.php:277 | reads the cache as `CacheGet` does |
| WeiXinPlatform.WeiXin.SetCache | files/WeiXin.php:275 | updates the cache as `CachePut` does |
| WeiXinPlatform.WeiXin.Post | files/WeiXin.php:279-303 | sends, logs and answers as `Send` does |
| WeiXinPlatform.WeiXin.SetComponentVerifyTicket | files/WeiXin.php:32-38 | stores the ticket under the verify-ticket key, with no lifetime |
| WeiXinPlatform.WeiXin.GetComponentVerifyTicket | files/WeiXin.php:40-43 | reads the verify-ticket key |
| WeiXinPlatform.WeiXin.SetAuthorizerRefreshToken | files/WeiXin.php:45-51 | stores the refresh token under the authorizer's key, with no lifetime |
| WeiXinPlatform.WeiXin.GetAuthorizerRefreshToken | files/WeiXin.php:53-58 | reads the authorizer's refresh-token key |
| WeiXinPlatform.WeiXin.SetAuthorizerAccessToken | files/WeiXin.php:60-67 | stores the access token under the authorizer's key, for `expired` seconds (default 3600) |
| WeiXinPlatform.WeiXin.GetComponentAccessToken | files/WeiXin.php:122-146 | leaves the state, and gives the result, of `ComponentAccessToken` |
| WeiXinPlatform.WeiXin.RefreshAuthorizerAccessToken | files/WeiXin.php:69-83 | leaves the state, and gives the result, of `RefreshAuthorizerToken` |
| WeiXinPlatform.WeiXin.GetAuthorizerAccessToken | files/WeiXin.php:93-114 | leaves the state, and gives the result, of `AuthorizerAccessToken` |
| WeiXinPlatform.WeiXin.GetPreAuthCode | files/WeiXin.php:153-163 | leaves the state, and gives the result, of `PreAuthCode` |
| WeiXinPlatform.WeiXin.GetAuthorizationInfo | files/WeiXin.php:173-199 | leaves the state, and gives the result, of `AuthorizationInfo` |
| WeiXinPlatform.WeiXin.GetAuthorizerInfo | files/WeiXin.php:210-224 | leaves the state, and gives the result, of `AuthorizerInfo` |
| WeiXinPlatform.WeiXin.GetAuthorizerOption | files/WeiXin.php:234-245 | leaves the state, and gives the result, of `AuthorizerOption` |
| WeiXinPlatform.WeiXin.SetAuthorizerOption | files/WeiXin.php:256-273 | leaves the state, and gives the result, of `UpdateAuthorizerOption` |

## Behaviour worth knowing

- A business failure (`result_code` not SUCCESS) reports `err_code`.
- The verify ticket is cached with no lifetime.
- A missing refresh token is sent as null, and whatever the platform answers is handled as usual.
- `refund` posts without checking the certificate paths.
- In `JsApiWeChatPay`, `timeExpire` is documented in minutes but added to the clock as seconds.
- `refund` reads the properties `_app_id` and `_partner_id`, which are never set, so `appid`, `mch_id` and `op_user_id` are null and are not signed.

## Left out

- The HTTP transport (curl, TLS options, certificate loading, `getCurlHelper`) is a parameter. `post` in the payment variants and `remote` in the broker return the decoded reply or a failure.
- XML encoding and decoding (`array2xml`, `toXml`, `fromXml`) and JSON encoding and decoding are not modelled. Replies are taken as already decoded.
- The MD5 algorithm is a parameter. `DigestShaped` assumes only that digests have 32 characters.
- `time()`, `formatDate`/`date`, `buildNonce` and `getRandString` are parameters (`now`, `stamp`, `fmt`, `nonce`, `clientNonce`).
- `JsApiWeChatPay` and `MicroWeChatPay` call `post`, `toXml`, `fromXml` and `buildNonce`, which none of the modelled classes defines. Their effect is taken from the names: post the signed array to the URL and decode the reply.
- `JsApiWeChatPay::buildOrder` passes the raw response to `parseResponseResult` without decoding it. The model treats it as decoded, like the other variants.
- The `mch_id`, `sub_mch_id` and `sub_appid` properties of `JsApiWeChatPay` and `MicroWeChatPay` are never assigned by the code shown. They are the input `Provider`.
- WeChatPay.VerifyData: `$calcSign == $sign` is PHP's loose comparison, modelled as strict equality. Two cases differ and are not captured. First, a received `sign` of boolean `true` equals any non-empty signature in PHP, so PHP accepts it where the model rejects it. Second, an upper-cased digest that reads as a number (`0E` followed by 30 digits) equals any other numeric string of the same value, such as `00`. `VerifyIffSignature` and `TamperedSignatureRejected` hold for strict equality only.
- WeChatPay.IsSuccess: `== 'SUCCESS'` follows PHP 8. Only the string itself and `true` are equal to it.
- AppWeChatPay.ExpiryTime: `$timeExpire` is taken as an integer. Strings and floats given as minutes are not modelled.
- `intval` and `(int)` on strings cover only whole numbers with optional leading blanks and sign. Floats, exponents and overflow to the integer limits are not modelled.
- WeiXinPlatform.LooseZero: PHP 8 `== 0` is modelled for integers, booleans, null, arrays and integer strings. Float-looking numeric strings (such as "0.0") are not modelled.
- Decoded JSON objects are lists of entries whose keys are not required to be distinct. `Lookup` takes the first entry for a key. `json_decode` keeps the last, but it never produces duplicates, so decoded replies are assumed to have distinct keys.
- PhpArray.KSort: keys are compared byte by byte. PHP turns integer-like string keys into integer keys, and PHP 8 `ksort` compares numeric keys numerically. Every key in the modelled code is a fixed field name that is not numeric, so keys are assumed non-numeric.
- JSON numbers are integers. JSON floats and lists are not modelled; lists would decode to arrays with integer keys.
- A non-array `authorization_info` is read as if all its fields were null. PHP would read characters of a string there.
- The cache's own semantics belong to the subclass. They are modelled as a map with an expiry moment `clock + expired`, or none when `expired` is null. `setCache`'s return value is dropped.
- Concurrent callers sharing one cache are not modelled. Each operation runs alone on the world.
- `PayInterface` and the exception classes: the exceptions are the error constructors `PayError` and `BrokerError`.
