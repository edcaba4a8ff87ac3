/** The virtual-payment channel: the money arithmetic of placing an order and reading its delivery push
    (pay/xpay.go). */
module XPay {
  import opened Text
  import Delivery

  // ---- 64-bit arithmetic ---------------------------------------------------------------------------------

  const TWO63 := 0x8000_0000_0000_0000

  type Int64 = x: int | -TWO63 <= x < TWO63

  /** The int64 a product wraps to. */
  function Wrap(x: int): Int64 {
    (x + TWO63) % (2 * TWO63) - TWO63
  }

  lemma WrapInRange(x: int)
    requires -TWO63 <= x < TWO63
    ensures Wrap(x) == x
  {
  }

  // ---- placing an order ------------------------------------------------------------------------------------

  datatype Config = Config(appID: string, appSecret: string, offerID: string, appKey: string, env: int, iosMinFen: Int64)

  datatype PrepayRequest = PrepayRequest(
    orderID: string, amountFen: Int64, openID: string, productID: string, listFen: Int64, quantity: Int64,
    sessionKey: string, loginCode: string, platform: string, attach: string)

  /** The payload the mini program pays by; a zero activity price is not sent. */
  datatype SignData = SignData(
    offerID: string, buyQuantity: Int64, env: int, productID: string, goodsPrice: Int64, activitySellingPrice: Int64,
    outTradeNo: string, attach: string)

  datatype Session = Session(openID: string, sessionKey: string)

  /** What the client is given: the serialized payload and its two signatures. */
  datatype ClientParams = ClientParams(orderID: string, signData: string, paySig: string, signature: string)

  datatype Error = BadTradeNo | NoProduct | BadAmount | IOSMinimum | NoSession | WrongUser | NotDivisible | WrongEnvironment

  predicate AlphaNumeric(c: char) {
    '0' <= c <= '9' || 'A' <= c <= 'Z' || 'a' <= c <= 'z'
  }

  /** 8 to 32 letters, digits and _-|*@, not starting with an underscore. */
  predicate TradeNo(s: string) {
    && 8 <= |s| <= 32 && (AlphaNumeric(s[0]) || s[0] in "-|*@")
    && forall i :: 1 <= i < |s| ==> AlphaNumeric(s[i]) || s[i] in "_-|*@"
  }

  function Quantity(r: PrepayRequest): Int64 {
    if r.quantity <= 0 then 1 else r.quantity
  }

  function ListPrice(r: PrepayRequest): Int64 {
    if r.listFen <= 0 then r.amountFen else r.listFen
  }

  /** What the platform charges per piece: the activity price where one is sent, else the list price. */
  function UnitPrice(d: SignData): Int64 {
    if d.activitySellingPrice != 0 then d.activitySellingPrice else d.goodsPrice
  }

  /** The amount is a positive number of pieces at a positive price no higher than the list price, and does
      not exceed the list total as int64 computes it. */
  ghost predicate Payable(amount: int, list: int, q: int) {
    0 < amount <= Wrap(list * q) && exists unit :: UnitFits(unit, amount, list, q)
  }

  predicate UnitFits(unit: int, amount: int, list: int, q: int) {
    1 <= unit <= list && unit * q == amount
  }

  /** What the platform says of the request's login code; nothing without a code or an application secret. */
  function LoggedIn(cfg: Config, r: PrepayRequest, login: string -> Option<Session>): Option<Session> {
    if r.loginCode == "" || cfg.appSecret == "" then None else login(r.loginCode)
  }

  /** `key` may sign for the request: it is the request's own, or that of a login by the user it names, if any. */
  ghost predicate Authorizes(key: string, cfg: Config, r: PrepayRequest, login: string -> Option<Session>) {
    if r.sessionKey != "" then key == r.sessionKey
    else exists s :: LoggedIn(cfg, r, login) == Some(s) && s.sessionKey == key && (r.openID == "" || s.openID == r.openID)
  }

  ghost predicate Accepts(cfg: Config, r: PrepayRequest, login: string -> Option<Session>) {
    && TradeNo(r.orderID) && r.productID != ""
    && Payable(r.amountFen, ListPrice(r), Quantity(r))
    && !(EqualFold(r.platform, "ios") && r.amountFen < cfg.iosMinFen)
    && exists key :: Authorizes(key, cfg, r, login)
  }

  lemma Division(a: int, q: int)
    requires a > 0 && q > 0
    ensures a / q * q + a % q == a && 0 <= a % q < q && a / q >= 0
  {
  }

  /** A multiple is its factor times the divisor, without remainder. */
  lemma {:induction false} MultipleDivides(unit: int, q: int)
    requires q > 0 && unit >= 0
    ensures unit * q / q == unit && unit * q % q == 0
    decreases unit
  {
    if unit > 0 {
      MultipleDivides(unit - 1, q);
      assert unit * q == (unit - 1) * q + q;
      assert ((unit - 1) * q + q) / q == (unit - 1) * q / q + 1;
    }
  }

  lemma ProductMonotone(a: int, b: int, q: int)
    requires a <= b && q > 0
    ensures a * q <= b * q
  {
  }

  /** At or above the list price, the amount is exactly the list total, and that total did not wrap. */
  lemma FullPrice(amount: Int64, list: Int64, q: Int64)
    requires 0 < amount <= Wrap((list as int) * q) && q > 0 && list > 0 && amount / q >= list
    ensures list * q == amount
  {
    Division(amount, q);
    ProductMonotone(list, amount / q, q);
    ProductMonotone(1, list, q);
    WrapInRange(list * q);
  }

  /** When the division is exact, the quotient is a price; when it is not, or the total is exceeded, none is. */
  lemma PayableMeans(amount: Int64, list: Int64, q: Int64)
    requires q > 0 && amount > 0 && list > 0
    ensures amount / q < list && amount % q == 0 ==> 0 < amount / q && UnitFits(amount / q, amount, list, q)
    ensures amount / q < list && amount % q != 0 ==> forall unit :: !UnitFits(unit, amount, list, q)
  {
    Division(amount, q);
    if amount % q != 0 {
      forall unit ensures !UnitFits(unit, amount, list, q) {
        if unit >= 1 { MultipleDivides(unit, q); }
      }
    }
  }

  /** The session part of `Prepay`: the one key that authorizes the request, if there is one; the wrong-user
      answer means that the login is another user's than the request names. */
  method TakeSession(cfg: Config, r: PrepayRequest,
                     login: string -> Option<Session>) returns (session: Result<string, Error>)
    ensures forall key :: session == Ok(key) <==> Authorizes(key, cfg, r, login)
    ensures session == Err(WrongUser) <==>
            && r.sessionKey == "" && r.openID != ""
            && exists s :: LoggedIn(cfg, r, login) == Some(s) && s.openID != r.openID
  {
    if r.sessionKey != "" { return Ok(r.sessionKey); }
    if r.loginCode == "" || cfg.appSecret == "" { return Err(NoSession); }
    var s := login(r.loginCode);
    if s.None? { return Err(NoSession); }
    if r.openID != "" && s.value.openID != r.openID { return Err(WrongUser); }
    return Ok(s.value.sessionKey);
  }

  /** The discount part: an activity price when the amount is below the list total. */
  method Discount(data: SignData, amount: Int64) returns (r: Result<SignData, Error>)
    requires data.buyQuantity > 0 && data.goodsPrice > 0 && data.activitySellingPrice == 0
    requires 0 < amount <= Wrap((data.goodsPrice as int) * data.buyQuantity)
    ensures r.Ok? <==> Payable(amount, data.goodsPrice, data.buyQuantity)
    ensures r.Ok? ==> r.value == data.(activitySellingPrice := r.value.activitySellingPrice)
    ensures r.Ok? ==> 0 < UnitPrice(r.value) <= data.goodsPrice && data.buyQuantity * UnitPrice(r.value) == amount
  {
    var list, q := data.goodsPrice, data.buyQuantity;
    PayableMeans(amount, list, q);
    Division(amount, q);
    var unit := amount / q;
    if unit < list {
      if amount % q != 0 { return Err(NotDivisible); }
      return Ok(data.(activitySellingPrice := unit));
    }
    FullPrice(amount, list, q);
    assert UnitFits(list, amount, list, q);
    return Ok(data);
  }

  /** `Prepay`; `login` exchanges a login code, `marshal` serializes, `hmac` signs. It succeeds exactly for
      acceptable requests, and then the pieces at the price charged come to the amount exactly. */
  method Prepay(cfg: Config, r: PrepayRequest, login: string -> Option<Session>, marshal: SignData -> string,
                hmac: (string, string) -> string)
    returns (params: Result<ClientParams, Error>, data: SignData)
    ensures params.Ok? <==> Accepts(cfg, r, login)
    ensures params.Ok? ==> data.buyQuantity > 0 && UnitPrice(data) > 0 && data.buyQuantity * UnitPrice(data) == r.amountFen
    ensures params.Ok? ==> data.buyQuantity == Quantity(r) && data.goodsPrice == ListPrice(r) && UnitPrice(data) <= data.goodsPrice
    ensures params.Ok? ==> data.outTradeNo == r.orderID && data.attach == (if r.attach == "" then r.orderID else r.attach)
    ensures params.Ok? ==>
              exists key :: (
                && Authorizes(key, cfg, r, login)
                && params.value == ClientParams(r.orderID, marshal(data), hmac(cfg.appKey, "requestVirtualPayment&" + marshal(data)),
                                                hmac(key, marshal(data))))
  {
    hide TradeNo, EqualFold, Authorizes, UnitPrice, Wrap, UnitFits;
    data := SignData(cfg.offerID, 0, cfg.env, r.productID, 0, 0, r.orderID, "");
    if !TradeNo(r.orderID) { return Err(BadTradeNo), data; }
    if r.productID == "" { return Err(NoProduct), data; }
    var q := r.quantity;
    if q <= 0 { q := 1; }
    var list := r.listFen;
    if list <= 0 { list := r.amountFen; }
    if r.amountFen <= 0 || r.amountFen > Wrap((list as int) * q) { return Err(BadAmount), data; }
    if EqualFold(r.platform, "ios") && r.amountFen < cfg.iosMinFen { return Err(IOSMinimum), data; }
    var session := TakeSession(cfg, r, login);
    if session.Err? { return Err(session.error), data; }
    var attach := r.attach;
    if attach == "" { attach := r.orderID; }
    data := SignData(cfg.offerID, q, cfg.env, r.productID, list, 0, r.orderID, attach);
    hide Payable;
    var priced := Discount(data, r.amountFen);
    if priced.Err? { return Err(priced.error), data; }
    data := priced.value;
    var text := marshal(data);
    params := Ok(ClientParams(r.orderID, text, hmac(cfg.appKey, "requestVirtualPayment&" + text), hmac(session.value, text)));
  }

  // ---- the delivery push -----------------------------------------------------------------------------------

  datatype Line = Line(quantity: Int64, actualPrice: Int64)

  datatype PushEvent = PushEvent(env: int, outTradeNo: string, mchOrderNo: Option<string>, goods: Option<Line>, coin: Option<Line>)

  datatype Txn = Txn(orderID: string, transactionID: string, amountFen: Int64)

  /** The payment branch of `ParseNotify`. */
  method ParsePayment(env: int, e: PushEvent) returns (t: Result<Txn, Error>)
    ensures t.Ok? <==> e.env == env
    ensures t.Ok? ==> t.value.orderID == e.outTradeNo && t.value.transactionID == PushTransaction(e) && t.value.transactionID != ""
    ensures t.Ok? ==> t.value.amountFen == Wrap(PushLine(e).actualPrice * (if PushLine(e).quantity <= 0 then 1 else PushLine(e).quantity))
  {
    if e.env != env { return Err(WrongEnvironment); }
    var actual: Int64, qty: Int64 := 0, 0;
    if e.goods.Some? {
      actual, qty := e.goods.value.actualPrice, e.goods.value.quantity;
    } else if e.coin.Some? {
      actual, qty := e.coin.value.actualPrice, e.coin.value.quantity;
    }
    if qty <= 0 { qty := 1; }
    var txn := "";
    if e.mchOrderNo.Some? { txn := e.mchOrderNo.value; }
    if txn == "" { txn := "out:" + e.outTradeNo; }
    return Ok(Txn(e.outTradeNo, txn, Wrap((actual as int) * qty)));
  }

  function PushLine(e: PushEvent): Line {
    if e.goods.Some? then e.goods.value else if e.coin.Some? then e.coin.value else Line(0, 0)
  }

  /** The number by which a push is delivered once: the channel's, else one made from the order's. */
  function PushTransaction(e: PushEvent): (r: string)
    ensures r != ""
  {
    if e.mchOrderNo.Some? && e.mchOrderNo.value != "" then e.mchOrderNo.value else "out:" + e.outTradeNo
  }

  /** The push of an order placed by `Prepay`, echoing its price and quantity, is worth the order's amount. */
  lemma PushEchoesAmount(r: PrepayRequest, data: SignData, e: PushEvent)
    requires data.buyQuantity > 0 && data.buyQuantity * UnitPrice(data) == r.amountFen
    requires PushLine(e) == Line(data.buyQuantity, UnitPrice(data))
    ensures Wrap(PushLine(e).actualPrice * (if PushLine(e).quantity <= 0 then 1 else PushLine(e).quantity)) == r.amountFen
  {
    assert UnitPrice(data) * data.buyQuantity == r.amountFen;
    WrapInRange(r.amountFen);
  }

  /** Polling delivers by the platform's number `wxOrderID`. After a push that delivered, polling the same
      order hands out the goods again exactly when that number is not the one the push was delivered by: the
      push carried another one, or none and the number is not the made-up one. */
  lemma PollAfterPush(rows: Delivery.Table, e: PushEvent, wxOrderID: string, order: Delivery.Order, id: nat, id': nat)
    requires ("xpay", PushTransaction(e)) !in rows && ("xpay", wxOrderID) !in rows
    ensures var (pushed, rows') := Delivery.Alone(rows, ("xpay", PushTransaction(e)), id, order, false);
            && pushed.done
            && (Delivery.Alone(rows', ("xpay", wxOrderID), id', order, false).0.done <==>
                && wxOrderID != ""
                && if e.mchOrderNo in {None, Some("")} then wxOrderID != "out:" + e.outTradeNo else e.mchOrderNo != Some(wxOrderID))
  {
  }

  /** Without overflow the only thing asked of the amount is a unit price; with it, payable amounts are lost. */
  lemma WhenTotalsFit(amount: Int64, list: Int64, q: Int64)
    requires q > 0 && list > 0
    ensures list * q < TWO63 ==> (Payable(amount, list, q) <==> exists unit :: UnitFits(unit, amount, list, q))
    ensures UnitFits(1, 4, 0x4000_0000_0000_0000, 4) && !Payable(4, 0x4000_0000_0000_0000, 4)
  {
    if list * q < TWO63 {
      ProductMonotone(1, list, q);
      WrapInRange(list * q);
      if unit :| UnitFits(unit, amount, list, q) {
        ProductMonotone(unit, list, q);
        ProductMonotone(1, unit, q);
      }
    }
  }
}
