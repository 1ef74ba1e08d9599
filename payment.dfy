/** The payment service (`utils/payment_service.py`): the membership
  * catalogue, order creation with its order number and mock WeChat Pay or
  * Alipay parameters, the payment callbacks, and the service singleton. The
  * clock, the random draws, md5 and the floating-point amount sent to Alipay
  * are inputs (`Env`); the database stubs are modelled as the code has them. */
module Payment {
  import opened Wrappers
  import opened Text

  /** A membership product; prices are in fen (hundredths of a yuan). */
  datatype Product = Product(name: String, priceFen: nat, durationDays: nat, membershipLevel: nat)

  /** `PRODUCTS.get(productType)`: month card, year card and lifetime. */
  function Products(productType: int): (r: Option<Product>)
    ensures r.Some? <==> productType in {1, 2, 3}
  {
    if productType == 1 then Some(Product("专业版会员(月卡)", 1990, 30, 1))
    else if productType == 2 then Some(Product("专业版会员(年卡)", 19900, 365, 1))
    else if productType == 3 then Some(Product("尊享版会员(终身)", 49900, 36500, 2))
    else None
  }

  /** The cards are the professional level and the lifetime membership the
    * premium level; a longer membership never costs less. */
  lemma CatalogueLevels()
    ensures Products(1).value.membershipLevel == 1 && Products(2).value.membershipLevel == 1
    ensures Products(3).value.membershipLevel == 2
    ensures forall a, b ::
      1 <= a <= 3 && 1 <= b <= 3 && Products(a).value.durationDays <= Products(b).value.durationDays ==>
      Products(a).value.priceFen <= Products(b).value.priceFen
  {
  }

  // ---------------------------------------------------------------------
  // Order numbers

  /** A local date and time as `datetime.now()` gives it. */
  datatype DateTime = DateTime(year: nat, month: nat, day: nat, hour: nat, minute: nat, second: nat)

  predicate ValidDateTime(t: DateTime) {
    1000 <= t.year <= 9999 && 1 <= t.month <= 12 && 1 <= t.day <= 31 &&
    t.hour < 24 && t.minute < 60 && t.second < 60
  }

  function Zeros(k: nat): (r: String)
    ensures |r| == k && forall i :: 0 <= i < k ==> r[i] == '0'
  {
    seq(k, _ => '0')
  }

  /** `n` in decimal, padded with zeros on the left to `width` characters. */
  function ZeroPad(n: nat, width: nat): (r: String)
    ensures forall i :: 0 <= i < |r| ==> IsDigit(r[i])
    ensures |NatToString(n)| <= width ==> |r| == width
  {
    var d := NatToString(n);
    if |d| >= width then d else Zeros(width - |d|) + d
  }

  /** `strftime("%Y%m%d%H%M%S")` */
  function CompactStamp(t: DateTime): String {
    ZeroPad(t.year, 4) + ZeroPad(t.month, 2) + ZeroPad(t.day, 2) +
    ZeroPad(t.hour, 2) + ZeroPad(t.minute, 2) + ZeroPad(t.second, 2)
  }

  /** A number below 100 has at most two digits. */
  lemma TwoDigitsAtMost(n: nat)
    requires n < 100
    ensures |NatToString(n)| <= 2
  {
    if n >= 10 {
      assert NatToString(n) == NatToString(n / 10) + [DigitChar(n % 10)];
    }
  }

  /** A number from 1000 to 9999 has exactly four digits. */
  lemma FourDigits(n: nat)
    requires 1000 <= n <= 9999
    ensures |NatToString(n)| == 4
  {
    assert NatToString(n) == NatToString(n / 10) + [DigitChar(n % 10)];
    assert NatToString(n / 10) == NatToString(n / 100) + [DigitChar(n / 10 % 10)];
    assert NatToString(n / 100) == NatToString(n / 1000) + [DigitChar(n / 100 % 10)];
  }

  /** The compact stamp of a real date and time is fourteen digits. */
  lemma CompactStampDigits(t: DateTime)
    requires ValidDateTime(t)
    ensures |CompactStamp(t)| == 14
    ensures forall i :: 0 <= i < 14 ==> IsDigit(CompactStamp(t)[i])
  {
    FourDigits(t.year);
    TwoDigitsAtMost(t.month);
    TwoDigitsAtMost(t.day);
    TwoDigitsAtMost(t.hour);
    TwoDigitsAtMost(t.minute);
    TwoDigitsAtMost(t.second);
  }

  /** `_generate_order_no`: `JA`, the compact stamp and the random number. */
  function OrderNo(now: DateTime, randomNum: int): (r: String)
    ensures |r| > 2 && r[..2] == "JA"
  {
    "JA" + CompactStamp(now) + IntToString(randomNum)
  }

  /** With a real clock and `random.randint(1000, 9999)`, an order number is
    * `JA` followed by eighteen digits, twenty characters in all. */
  lemma OrderNoFormat(now: DateTime, randomNum: int)
    requires ValidDateTime(now) && 1000 <= randomNum <= 9999
    ensures var r := OrderNo(now, randomNum);
      |r| == 20 && r[..2] == "JA" && forall i :: 2 <= i < 20 ==> IsDigit(r[i])
  {
    CompactStampDigits(now);
    FourDigits(randomNum);
    var r := OrderNo(now, randomNum);
    var s := CompactStamp(now);
    var d := IntToString(randomNum);
    assert r == "JA" + s + d;
    forall i | 2 <= i < 20
      ensures IsDigit(r[i])
    {
      if i < 16 {
        assert r[i] == s[i - 2];
      } else {
        assert r[i] == d[i - 16];
      }
    }
  }

  /** The stamp and the random number can be read back from the order
    * number. */
  lemma OrderNoRoundTrip(now: DateTime, randomNum: int)
    requires ValidDateTime(now) && 1000 <= randomNum <= 9999
    ensures var r := OrderNo(now, randomNum);
      |r| == 20 && r[2..16] == CompactStamp(now) && ParseInt(r[16..]) == Some(randomNum)
  {
    CompactStampDigits(now);
    FourDigits(randomNum);
    var r := OrderNo(now, randomNum);
    assert r[2..16] == CompactStamp(now);
    assert r[16..] == IntToString(randomNum);
    ParseIntOfIntToString(randomNum);
  }

  // ---------------------------------------------------------------------
  // Payment parameters

  /** `_mock_prepay_id` */
  function PrepayId(orderNo: String): (r: String)
    ensures |r| == |orderNo| + 2 && r[..2] == "wx" && r[2..] == orderNo
  {
    "wx" + orderNo
  }

  /** The characters `_generate_nonce_str` draws from. */
  const NonceAlphabet: String := "abcdefghijklmnopqrstuvwxyz0123456789"

  /** The character at position `i` of the alphabet. */
  function NonceChar(i: nat): char
    requires i < 36
  {
    if i < 26 then ('a' as int + i) as char else ('0' as int + (i - 26)) as char
  }

  lemma NonceAlphabetSpelled()
    ensures |NonceAlphabet| == 36
    ensures forall i :: 0 <= i < 36 ==> NonceAlphabet[i] == NonceChar(i)
  {
  }

  /** The alphabet is exactly the lower-case ASCII letters and the digits. */
  lemma NonceAlphabetIsLowerAlnum(c: char)
    ensures c in NonceAlphabet <==> 'a' <= c <= 'z' || '0' <= c <= '9'
  {
    NonceAlphabetSpelled();
    if c in NonceAlphabet {
      var i :| 0 <= i < 36 && NonceAlphabet[i] == c;
      assert NonceChar(i) == c;
    }
    if 'a' <= c <= 'z' {
      assert NonceAlphabet[c as int - 'a' as int] == c;
    } else if '0' <= c <= '9' {
      assert NonceAlphabet[c as int - '0' as int + 26] == c;
    }
  }

  /** The 32 draws of `random.choice(chars)`, as positions in the alphabet. */
  predicate ValidPicks(picks: seq<nat>) {
    |picks| == 32 && forall k :: 0 <= k < |picks| ==> picks[k] < 36
  }

  /** `_generate_nonce_str`, for the given draws. */
  function NonceStr(picks: seq<nat>): (r: String)
    requires ValidPicks(picks)
    ensures |r| == 32
    ensures forall k :: 0 <= k < |r| ==> r[k] in NonceAlphabet && r[k] == NonceAlphabet[picks[k]]
  {
    seq(|picks|, k requires 0 <= k < |picks| => NonceAlphabet[picks[k]])
  }

  /** Distinct draws give distinct nonces: every character of the alphabet
    * is there once. */
  lemma NonceStrInjective(p: seq<nat>, q: seq<nat>)
    requires ValidPicks(p) && ValidPicks(q) && NonceStr(p) == NonceStr(q)
    ensures p == q
  {
    NonceAlphabetSpelled();
    forall k | 0 <= k < 32
      ensures p[k] == q[k]
    {
      assert NonceStr(p)[k] == NonceStr(q)[k];
    }
  }

  /** What the clock, the random module, md5 and the floating-point product
    * `int(amount * 100)` give one `create_order` call. */
  datatype Env = Env(
    now: DateTime, unixTime: int, randomNum: int, picks: seq<nat>,
    md5: String -> String, alipayTotal: int)

  /** The service's configuration sections. */
  datatype PaymentService = PaymentService(wechatpay: map<String, String>, alipay: map<String, String>)

  /** `PaymentService(config)`: a missing or empty configuration reads as
    * `{}`, and a missing section as `{}`. */
  function NewService(config: Option<map<String, map<String, String>>>): (s: PaymentService)
    ensures config.None? ==> s == PaymentService(map[], map[])
    ensures config.Some? && "wechatpay" in config.value ==> s.wechatpay == config.value["wechatpay"]
    ensures config.Some? && "alipay" in config.value ==> s.alipay == config.value["alipay"]
  {
    var c := if config.Some? then config.value else map[];
    PaymentService(
      if "wechatpay" in c then c["wechatpay"] else map[],
      if "alipay" in c then c["alipay"] else map[])
  }

  /** `config.get('app_id', '')` */
  function AppId(section: map<String, String>): String {
    if "app_id" in section then section["app_id"] else ""
  }

  /** The parameters the client needs to pay. */
  datatype PayParams =
    | WechatPay(timeStamp: String, nonceStr: String, package: String, signType: String,
                paySign: String, appId: String, prepayId: String)
    | Alipay(orderStr: String, appId: String, timestamp: String)

  /** The text `_mock_wechat_sign` hashes. */
  function WechatSignText(appId: String, nonce: String, orderNo: String, timestamp: String): String {
    "appId=" + appId + "&nonceStr=" + nonce + "&package=prepay_id=" + PrepayId(orderNo) + "&timeStamp=" + timestamp
  }

  /** `_generate_wechat_pay_params` */
  function WechatParams(s: PaymentService, orderNo: String, env: Env): (p: PayParams)
    requires ValidPicks(env.picks)
    ensures p.WechatPay? && p.prepayId == PrepayId(orderNo) && p.package == "prepay_id=" + p.prepayId
    ensures p.signType == "RSA" && p.appId == AppId(s.wechatpay)
    ensures p.paySign == env.md5(WechatSignText(p.appId, p.nonceStr, orderNo, p.timeStamp))
  {
    var timestamp := IntToString(env.unixTime);
    var nonce := NonceStr(env.picks);
    WechatPay(timestamp, nonce, "prepay_id=" + PrepayId(orderNo), "RSA",
      env.md5(WechatSignText(AppId(s.wechatpay), nonce, orderNo, timestamp)),
      AppId(s.wechatpay), PrepayId(orderNo))
  }

  /** `_generate_alipay_params` */
  function AlipayParams(s: PaymentService, orderNo: String, env: Env): (p: PayParams)
    ensures p.Alipay? && p.appId == AppId(s.alipay) && p.timestamp == IntToString(env.unixTime)
    ensures p.orderStr == "app_id=" + p.appId + "&method=alipay.trade.create&out_trade_no=" + orderNo
      + "&total_amount=" + IntToString(env.alipayTotal)
  {
    Alipay("app_id=" + AppId(s.alipay) + "&method=alipay.trade.create&out_trade_no=" + orderNo
        + "&total_amount=" + IntToString(env.alipayTotal),
      AppId(s.alipay), IntToString(env.unixTime))
  }

  /** The WeChat package names the prepay id, which names the order: the
    * order number is read back from it. */
  lemma PackageNamesOrder(s: PaymentService, orderNo: String, env: Env)
    requires ValidPicks(env.picks)
    ensures var p := WechatParams(s, orderNo, env);
      |p.package| == 12 + |orderNo| && p.package[..12] == "prepay_id=wx" && p.package[12..] == orderNo
  {
    var p := WechatParams(s, orderNo, env);
    assert p.package == "prepay_id=wx" + orderNo;
  }

  /** What `create_order` answers. */
  datatype CreateResult =
    | OrderRejected(error: String)
    | OrderCreated(orderNo: String, productName: String, amountFen: nat, payType: int, payParams: PayParams)

  /** `create_order`: an unknown product is rejected; otherwise a new order
    * number, the catalogue name and price, and the parameters of WeChat Pay
    * for pay type 0 or of Alipay for any other. */
  function CreateOrder(s: PaymentService, userId: int, productType: int, payType: int, env: Env): (r: CreateResult)
    requires ValidPicks(env.picks)
    ensures r.OrderRejected? <==> productType !in {1, 2, 3}
    ensures r.OrderRejected? ==> r.error == "无效的产品类型"
    ensures r.OrderCreated? ==>
      && r.orderNo == OrderNo(env.now, env.randomNum)
      && r.productName == Products(productType).value.name
      && r.amountFen == Products(productType).value.priceFen
      && r.payType == payType
      && (r.payParams.WechatPay? <==> payType == 0)
    ensures r.OrderCreated? ==>
      r.payParams == (if payType == 0 then WechatParams(s, r.orderNo, env) else AlipayParams(s, r.orderNo, env))
    ensures r.OrderCreated? && payType == 0 ==> r.payParams.prepayId == PrepayId(r.orderNo)
  {
    match Products(productType)
    case None => OrderRejected("无效的产品类型")
    case Some(product) =>
      var orderNo := OrderNo(env.now, env.randomNum);
      var params := if payType == 0 then WechatParams(s, orderNo, env) else AlipayParams(s, orderNo, env);
      OrderCreated(orderNo, product.name, product.priceFen, payType, params)
  }

  /** The user does not affect the answer: the order data that would carry
    * the user id is never stored. */
  lemma CreateOrderIgnoresUser(s: PaymentService, u1: int, u2: int, productType: int, payType: int, env: Env)
    requires ValidPicks(env.picks)
    ensures CreateOrder(s, u1, productType, payType, env) == CreateOrder(s, u2, productType, payType, env)
  {
  }

  // ---------------------------------------------------------------------
  // Callbacks

  /** What `handle_notify` acknowledges. */
  datatype NotifyAck = NotifyAck(code: String, message: String, orderNo: String, transactionId: String)

  /** `handle_notify`: the signature is not checked; the order and
    * transaction are echoed, `''` when absent. */
  function HandleNotify(notify: map<String, String>): (r: NotifyAck)
    ensures r.code == "SUCCESS" && r.message == "OK"
    ensures "out_trade_no" in notify ==> r.orderNo == notify["out_trade_no"]
    ensures "out_trade_no" !in notify ==> r.orderNo == ""
    ensures "transaction_id" in notify ==> r.transactionId == notify["transaction_id"]
    ensures "transaction_id" !in notify ==> r.transactionId == ""
  {
    NotifyAck("SUCCESS", "OK",
      if "out_trade_no" in notify then notify["out_trade_no"] else "",
      if "transaction_id" in notify then notify["transaction_id"] else "")
  }

  /** A stored order. */
  datatype OrderRecord = OrderRecord(
    id: int, orderNo: String, userId: int, productType: int, amountFen: int, payStatus: int, payType: int)

  /** `_get_order_by_no`: the stub answers an unpaid month-card order of
    * user 1 for every order number. */
  function StubOrder(orderNo: String): OrderRecord {
    OrderRecord(1, orderNo, 1, 1, 1990, 0, 0)
  }

  /** The arguments of `_update_order_and_membership`. */
  datatype MembershipUpdate = MembershipUpdate(
    orderNo: String, transactionId: String, userId: int, membershipLevel: nat, membershipExpire: String)

  datatype Activation = Activation(orderNo: String, membershipLevel: nat, expireTime: String, productName: String)

  /** The ways `handle_payment_success` fails: a refusal, or the `KeyError`
    * of a product missing from the catalogue. */
  datatype ActivationError = Refused(message: String) | MissingProduct

  /** `_calculate_expire_time`'s number of days: 0 for an unknown product. */
  function DurationDays(productType: int): nat {
    if Products(productType).Some? then Products(productType).value.durationDays else 0
  }

  /** `handle_payment_success` over what the order lookup finds, what the
    * update reports and the date `expireAfter(days)` the clock gives. */
  function Activate(orderNo: String, transactionId: String, order: Option<OrderRecord>,
                    update: MembershipUpdate -> bool, expireAfter: nat -> String): (r: Result<Activation, ActivationError>)
    ensures order.None? ==> r == Err(Refused("订单不存在"))
    ensures order.Some? && order.value.payStatus == 1 ==> r == Err(Refused("订单已支付"))
    ensures r == Err(MissingProduct) <==>
      order.Some? && order.value.payStatus != 1 && Products(order.value.productType).None?
    ensures r.Ok? ==>
      && order.Some? && order.value.payStatus != 1
      && Products(order.value.productType).Some?
      && r.value.orderNo == orderNo
      && r.value.membershipLevel == Products(order.value.productType).value.membershipLevel
      && r.value.productName == Products(order.value.productType).value.name
      && r.value.expireTime == expireAfter(Products(order.value.productType).value.durationDays)
  {
    if order.None? then Err(Refused("订单不存在"))
    else if order.value.payStatus == 1 then Err(Refused("订单已支付"))
    else
      var o := order.value;
      var expire := expireAfter(DurationDays(o.productType));
      match Products(o.productType)
      case None => Err(MissingProduct)
      case Some(p) =>
        if update(MembershipUpdate(orderNo, transactionId, o.userId, p.membershipLevel, expire))
        then Ok(Activation(orderNo, p.membershipLevel, expire, p.name))
        else Err(Refused("开通会员失败"))
  }

  /** A found, unpaid order of a catalogue product fails only when the
    * update fails. */
  lemma ActivationFailsOnlyOnUpdate(orderNo: String, transactionId: String, o: OrderRecord,
                                    update: MembershipUpdate -> bool, expireAfter: nat -> String)
    requires o.payStatus != 1 && Products(o.productType).Some?
    ensures var p := Products(o.productType).value;
      var u := MembershipUpdate(orderNo, transactionId, o.userId, p.membershipLevel, expireAfter(p.durationDays));
      Activate(orderNo, transactionId, Some(o), update, expireAfter).Err? <==> !update(u)
  {
  }

  /** `handle_payment_success` with the stubs of the code: the lookup finds
    * the unpaid month-card order and the update succeeds. */
  function HandlePaymentSuccess(orderNo: String, transactionId: String, expireAfter: nat -> String): (r: Result<Activation, ActivationError>)
    ensures r.Ok? && r.value.orderNo == orderNo && r.value.membershipLevel == 1
  {
    Activate(orderNo, transactionId, Some(StubOrder(orderNo)), _ => true, expireAfter)
  }

  /** With the stubs every payment activates a thirty-day professional
    * membership. */
  lemma StubPaymentActivatesMonthCard(orderNo: String, transactionId: String, expireAfter: nat -> String)
    ensures HandlePaymentSuccess(orderNo, transactionId, expireAfter) ==
      Ok(Activation(orderNo, 1, expireAfter(30), "专业版会员(月卡)"))
  {
  }

  /** `query_order` over what the lookup finds. */
  function QueryOrder(orderNo: String, order: Option<OrderRecord>): (r: Result<OrderRecord, String>)
    ensures order.Some? <==> r.Ok?
    ensures order.Some? ==> r.value == order.value
    ensures order.None? ==> r.error == "订单不存在"
  {
    if order.Some? then Ok(order.value) else Err("订单不存在")
  }

  // ---------------------------------------------------------------------
  // The singleton

  /** The module-level `_payment_service`. */
  class ServiceSlot {
    var service: Option<PaymentService>

    constructor ()
      ensures service.None?
    {
      service := None;
    }

    /** `get_payment_service`: the first call's configuration builds the
      * service; later calls return it and ignore their configuration. */
    method GetPaymentService(config: Option<map<String, map<String, String>>>) returns (s: PaymentService)
      modifies this
      ensures old(service).Some? ==> s == old(service).value && service == old(service)
      ensures old(service).None? ==> s == NewService(config) && service == Some(s)
    {
      if service.None? {
        service := Some(NewService(config));
      }
      s := service.value;
    }
  }
}
