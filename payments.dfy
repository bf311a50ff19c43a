/** The payment routes of `server/src/payments.routes.js`: the configuration
    test, POST /razorpay/create and POST /razorpay/verify, as transitions of
    an order's payment columns (unpaid, then created, then paid).

    The payment provider is an oracle from the request the handler sends to
    the order it gets back (or to nothing, when the call throws), and
    HMAC-SHA256 (RFC 2104 over FIPS 180-4, hex encoded) is an uninterpreted
    function of the key and the message. Amounts are integer minor units, so
    `Math.round(total * 100)` is the stored total itself. */
module Payments {
  import opened Wrappers
  import opened Text
  import opened Store

  /** `crypto.createHmac('sha256', key).update(message).digest('hex')`. */
  type Hmac = (string, string) -> string

  /** The argument of `client.orders.create`. */
  datatype ProviderRequest = ProviderRequest(amount: int, currency: string, receipt: string)

  /** The provider's order: its id and the amount it confirmed. */
  datatype ProviderOrder = ProviderOrder(id: string, amount: int)

  /** `client.orders.create` as an oracle; `None` when the call throws. */
  type Provider = ProviderRequest -> Option<ProviderOrder>

  /** The JSON body of a successful create. */
  datatype Intent = Intent(keyId: string, razorpayOrderId: string, amount: int, currency: string, orderId: string)

  /** A create reply and database, with the provider calls the handler made. */
  datatype Charge = Charge(outcome: Outcome<Intent>, calls: seq<ProviderRequest>)

  /** The four body fields of a verify request, before trimming. */
  datatype Receipt = Receipt(orderId: string, razorpayOrderId: string, razorpayPaymentId: string, razorpaySignature: string)

  const Currency := "INR"
  const ProviderName := "razorpay"
  const NotAuthenticated := "Not authenticated"
  const NotConfigured := "Payments are not configured yet."
  const OrderIdRequired := "orderId is required"
  const OrderNotFound := "Order not found"
  const NoPaymentRequired := "This order does not require payment."
  const AlreadyPaid := "Order is already paid."
  const CreateFailed := "Failed to create payment order"
  const MissingVerificationFields := "Missing payment verification fields"
  const InvalidSignature := "Invalid payment signature"
  const OrderMismatch := "Payment order mismatch"

  /** `isConfigured()`: both the key id and the secret are set to something
      other than spaces (see `IsConfiguredMeansNonBlank`). */
  predicate IsConfigured(cfg: Config)
    ensures IsConfigured(cfg) ==> cfg.razorpayKeyId != "" && cfg.razorpayKeySecret != ""
  {
    Trim(cfg.razorpayKeyId) != "" && Trim(cfg.razorpayKeySecret) != ""
  }

  lemma IsConfiguredMeansNonBlank(cfg: Config)
    ensures IsConfigured(cfg) <==>
              (exists i :: 0 <= i < |cfg.razorpayKeyId| && !IsJsSpace(cfg.razorpayKeyId[i]))
              && (exists i :: 0 <= i < |cfg.razorpayKeySecret| && !IsJsSpace(cfg.razorpayKeySecret[i]))
  {
    TrimEmptyIffAllSpaces(cfg.razorpayKeyId);
    TrimEmptyIffAllSpaces(cfg.razorpayKeySecret);
  }

  /** A column value JavaScript treats as true: not NULL and not empty. */
  predicate IsSet(v: Option<string>) {
    v.Some? && v.value != ""
  }

  /** `String(order.payment_status || '').toLowerCase() === 'paid'`. */
  predicate IsPaid(p: Payment)
    ensures IsPaid(p) ==> p.status.Some? && |p.status.value| == 4
    ensures p.status == Some("paid") ==> IsPaid(p)
  {
    LowerOfLowercase("paid");
    Lower(p.status.GetOr("")) == "paid"
  }

  /** The message the signature covers: `order_id|payment_id`. */
  function SignedMessage(razorpayOrderId: string, razorpayPaymentId: string): (m: string)
    ensures '|' !in razorpayOrderId ==>
              |razorpayOrderId| < |m| && m[|razorpayOrderId|] == '|'
              && (forall i :: 0 <= i < |razorpayOrderId| ==> m[i] != '|')
              && m[..|razorpayOrderId|] == razorpayOrderId && m[|razorpayOrderId| + 1..] == razorpayPaymentId
  {
    razorpayOrderId + "|" + razorpayPaymentId
  }

  // ---------------------------------------------------------------------------
  // SELECT ... FROM orders WHERE id = ? AND user_id = ?

  predicate IsOwned(o: Order, id: string, userId: string) {
    o.id == id && o.userId == userId
  }

  /** The row the query returns, if any (see `FindOwnedOrderIsFirst`). */
  function FindOwnedOrder(orders: seq<Order>, id: string, userId: string): (r: Option<nat>)
    ensures r.Some? ==> r.value < |orders| && IsOwned(orders[r.value], id, userId)
  {
    FindOwnedIn(orders, id, userId, |orders|)
  }

  /** The first matching row among the first `n`. */
  function FindOwnedIn(orders: seq<Order>, id: string, userId: string, n: nat): (r: Option<nat>)
    requires n <= |orders|
    ensures r.Some? ==> r.value < n && IsOwned(orders[r.value], id, userId)
    decreases n
  {
    if n == 0 then None
    else
      var r := FindOwnedIn(orders, id, userId, n - 1);
      if r.Some? then r
      else if IsOwned(orders[n - 1], id, userId) then Some(n - 1)
      else None
  }

  lemma {:induction false} FindOwnedInIsFirst(orders: seq<Order>, id: string, userId: string, n: nat)
    requires n <= |orders|
    ensures var r := FindOwnedIn(orders, id, userId, n);
            (r.None? <==> forall j :: 0 <= j < n ==> !IsOwned(orders[j], id, userId))
            && (r.Some? ==> forall j :: 0 <= j < r.value ==> !IsOwned(orders[j], id, userId))
    decreases n
  {
    if n > 0 {
      FindOwnedInIsFirst(orders, id, userId, n - 1);
    }
  }

  /** The query finds a row exactly when the user owns an order with that id,
      and then the first such row. */
  lemma FindOwnedOrderIsFirst(orders: seq<Order>, id: string, userId: string)
    ensures var r := FindOwnedOrder(orders, id, userId);
            (r.None? <==> forall j :: 0 <= j < |orders| ==> !IsOwned(orders[j], id, userId))
            && (r.Some? ==> forall j :: 0 <= j < r.value ==> !IsOwned(orders[j], id, userId))
  {
    FindOwnedInIsFirst(orders, id, userId, |orders|);
  }

  /** With unique order ids the row found is the only row with that id. */
  lemma FindOwnedOrderAt(orders: seq<Order>, i: nat, userId: string)
    requires UniqueOrderIds(orders) && i < |orders| && orders[i].userId == userId
    ensures FindOwnedOrder(orders, orders[i].id, userId) == Some(i)
  {
    FindOwnedOrderIsFirst(orders, orders[i].id, userId);
  }

  // ---------------------------------------------------------------------------
  // The two UPDATE statements

  function WithIntent(p: Payment, razorpayOrderId: string): Payment {
    p.(provider := Some(ProviderName), orderId := Some(razorpayOrderId), status := Some("created"))
  }

  function WithPayment(p: Payment, razorpayOrderId: string, razorpayPaymentId: string, signature: string, now: int)
    : Payment
  {
    Payment(Some("paid"), Some(ProviderName), Some(razorpayOrderId), Some(razorpayPaymentId), Some(signature), Some(now))
  }

  /** `UPDATE orders SET payment_provider, payment_order_id, payment_status
      WHERE id = ? AND user_id = ?` */
  function RecordIntent(orders: seq<Order>, id: string, userId: string, razorpayOrderId: string): (r: seq<Order>)
    ensures SameOrderIds(orders, r)
  {
    seq(|orders|, j requires 0 <= j < |orders| =>
      if IsOwned(orders[j], id, userId) then orders[j].(payment := WithIntent(orders[j].payment, razorpayOrderId))
      else orders[j])
  }

  /** `UPDATE orders SET payment_provider, payment_order_id,
      payment_payment_id, payment_signature, payment_status, paid_at
      WHERE id = ? AND user_id = ?` */
  function RecordPayment(orders: seq<Order>, id: string, userId: string, razorpayOrderId: string,
                         razorpayPaymentId: string, signature: string, now: int): (r: seq<Order>)
    ensures SameOrderIds(orders, r)
  {
    seq(|orders|, j requires 0 <= j < |orders| =>
      if IsOwned(orders[j], id, userId)
      then orders[j].(payment := WithPayment(orders[j].payment, razorpayOrderId, razorpayPaymentId, signature, now))
      else orders[j])
  }

  lemma RecordIntentAt(orders: seq<Order>, i: nat, userId: string, razorpayOrderId: string)
    requires UniqueOrderIds(orders) && i < |orders| && orders[i].userId == userId
    ensures RecordIntent(orders, orders[i].id, userId, razorpayOrderId)
              == orders[i := orders[i].(payment := WithIntent(orders[i].payment, razorpayOrderId))]
  {
  }

  lemma RecordPaymentAt(orders: seq<Order>, i: nat, userId: string, razorpayOrderId: string,
                        razorpayPaymentId: string, signature: string, now: int)
    requires UniqueOrderIds(orders) && i < |orders| && orders[i].userId == userId
    ensures RecordPayment(orders, orders[i].id, userId, razorpayOrderId, razorpayPaymentId, signature, now)
              == orders[i := orders[i].(payment := WithPayment(orders[i].payment, razorpayOrderId,
                                                              razorpayPaymentId, signature, now))]
  {
  }

  // ---------------------------------------------------------------------------
  // POST /razorpay/create

  /** POST /razorpay/create. The session is checked first, then the
      configuration, then the order id, then ownership of the order. What
      happens to the order found is `ChargeOrder`. */
  function CreateIntentStep(t: Tables, cfg: Config, session: Option<SessionUser>, orderId: string, provider: Provider)
    : (c: Charge)
    ensures c.outcome.tables.users == t.users && c.outcome.tables.otps == t.otps
    ensures |c.outcome.tables.orders| == |t.orders|
    ensures session.None? ==> c == Charge(Outcome(Error(401, NotAuthenticated), t), [])
    ensures session.Some? && !IsConfigured(cfg) ==> c == Charge(Outcome(Error(501, NotConfigured), t), [])
    ensures session.Some? && IsConfigured(cfg) && Trim(orderId) == "" ==>
              c == Charge(Outcome(Error(400, OrderIdRequired), t), [])
    ensures session.Some? && IsConfigured(cfg) && Trim(orderId) != ""
            && FindOwnedOrder(t.orders, Trim(orderId), session.value.id).None? ==>
              c == Charge(Outcome(Error(404, OrderNotFound), t), [])
  {
    if session.None? then Charge(Outcome(Error(401, NotAuthenticated), t), [])
    else if !IsConfigured(cfg) then Charge(Outcome(Error(501, NotConfigured), t), [])
    else
      var id := Trim(orderId);
      if id == "" then Charge(Outcome(Error(400, OrderIdRequired), t), [])
      else match FindOwnedOrder(t.orders, id, session.value.id)
        case None => Charge(Outcome(Error(404, OrderNotFound), t), [])
        case Some(i) => ChargeOrder(t, cfg, session.value.id, id, i, provider)
  }

  /** The create handler on the order row `i` it found. */
  function ChargeOrder(t: Tables, cfg: Config, userId: string, id: string, i: nat, provider: Provider): (c: Charge)
    requires i < |t.orders|
    ensures c.outcome.tables.users == t.users && c.outcome.tables.otps == t.otps
    ensures SameOrderIds(t.orders, c.outcome.tables.orders) && |c.calls| <= 1
  {
    var row := t.orders[i];
    if !(row.total > 0) then Charge(Outcome(Error(400, NoPaymentRequired), t), [])
    else if IsPaid(row.payment) then Charge(Outcome(Error(400, AlreadyPaid), t), [])
    else if IsSet(row.payment.orderId) then
      Charge(Outcome(Ok(Intent(Trim(cfg.razorpayKeyId), row.payment.orderId.value, row.total, Currency, id)), t), [])
    else
      var request := ProviderRequest(row.total, Currency, "order_" + id);
      match provider(request)
      case None => Charge(Outcome(Error(500, CreateFailed), t), [request])
      case Some(p) =>
        Charge(Outcome(Ok(Intent(Trim(cfg.razorpayKeyId), p.id, p.amount, Currency, id)),
                       t.(orders := RecordIntent(t.orders, id, userId, p.id))),
               [request])
  }

  lemma CreateIntentKeepsValid(t: Tables, cfg: Config, session: Option<SessionUser>, orderId: string, provider: Provider)
    requires TablesValid(t)
    ensures TablesValid(CreateIntentStep(t, cfg, session, orderId, provider).outcome.tables)
  {
    var c := CreateIntentStep(t, cfg, session, orderId, provider);
    if c.outcome.tables != t {
      var i := FindOwnedOrder(t.orders, Trim(orderId), session.value.id).value;
      CreateIntentCharges(t, cfg, session, orderId, provider, i);
      SameOrderIdsKeepValid(t.orders, c.outcome.tables.orders);
    }
  }

  /** The create request passes the session, configuration and order-id
      checks and the query finds the user's order at row `i`. */
  predicate Charging(t: Tables, cfg: Config, session: Option<SessionUser>, orderId: string, i: nat) {
    session.Some? && IsConfigured(cfg) && Trim(orderId) != ""
    && FindOwnedOrder(t.orders, Trim(orderId), session.value.id) == Some(i)
  }

  lemma CreateIntentCharges(t: Tables, cfg: Config, session: Option<SessionUser>, orderId: string, provider: Provider,
                            i: nat)
    requires Charging(t, cfg, session, orderId, i)
    ensures CreateIntentStep(t, cfg, session, orderId, provider)
              == ChargeOrder(t, cfg, session.value.id, Trim(orderId), i, provider)
  {
  }

  /** An order that needs no payment, or is paid already, is refused with 400
      before the provider is involved. */
  lemma CreateIntentRefuses(t: Tables, cfg: Config, session: Option<SessionUser>, orderId: string, provider: Provider,
                            i: nat)
    requires Charging(t, cfg, session, orderId, i)
    ensures var c := CreateIntentStep(t, cfg, session, orderId, provider);
            (t.orders[i].total <= 0 ==> c == Charge(Outcome(Error(400, NoPaymentRequired), t), []))
            && (t.orders[i].total > 0 && IsPaid(t.orders[i].payment) ==>
                  c == Charge(Outcome(Error(400, AlreadyPaid), t), []))
  {
    CreateIntentCharges(t, cfg, session, orderId, provider, i);
  }

  /** An order that already carries a provider order id gets that id back,
      with no provider call and no write. */
  lemma CreateIntentReuses(t: Tables, cfg: Config, session: Option<SessionUser>, orderId: string, provider: Provider,
                           i: nat)
    requires Charging(t, cfg, session, orderId, i)
    requires t.orders[i].total > 0 && !IsPaid(t.orders[i].payment) && IsSet(t.orders[i].payment.orderId)
    ensures CreateIntentStep(t, cfg, session, orderId, provider)
              == Charge(Outcome(Ok(Intent(Trim(cfg.razorpayKeyId), t.orders[i].payment.orderId.value,
                                          t.orders[i].total, Currency, Trim(orderId))), t), [])
  {
    CreateIntentCharges(t, cfg, session, orderId, provider, i);
  }

  /** The tables after create records provider order `p` on row `i`. */
  function Intended(t: Tables, i: nat, p: ProviderOrder): (r: Tables)
    requires i < |t.orders|
    ensures SameOrderIds(t.orders, r.orders)
  {
    t.(orders := t.orders[i := t.orders[i].(payment := WithIntent(t.orders[i].payment, p.id))])
  }

  /** Otherwise the handler asks the provider for exactly one order of the
      order's total, stores its id with status 'created' on that row alone,
      and returns the amount the provider confirmed. */
  lemma CreateIntentCreates(t: Tables, cfg: Config, session: Option<SessionUser>, orderId: string, provider: Provider,
                            i: nat)
    requires UniqueOrderIds(t.orders) && Charging(t, cfg, session, orderId, i)
    requires t.orders[i].total > 0 && !IsPaid(t.orders[i].payment) && !IsSet(t.orders[i].payment.orderId)
    ensures var request := ProviderRequest(t.orders[i].total, Currency, "order_" + Trim(orderId));
            var c := CreateIntentStep(t, cfg, session, orderId, provider);
            c.calls == [request]
            && (provider(request).None? ==> c.outcome == Outcome(Error(500, CreateFailed), t))
            && (provider(request).Some? ==>
                  var p := provider(request).value;
                  c.outcome == Outcome(Ok(Intent(Trim(cfg.razorpayKeyId), p.id, p.amount, Currency, Trim(orderId))),
                                       Intended(t, i, p)))
  {
    CreateIntentCharges(t, cfg, session, orderId, provider, i);
    var request := ProviderRequest(t.orders[i].total, Currency, "order_" + Trim(orderId));
    if provider(request).Some? {
      RecordIntentAt(t.orders, i, session.value.id, provider(request).value.id);
    }
  }

  /** Status 'created' is not 'paid'. */
  lemma IntentIsUnpaid(p: Payment, razorpayOrderId: string)
    ensures !IsPaid(WithIntent(p, razorpayOrderId))
  {
    assert |Lower("created")| == 7;
  }

  /** Calling create a second time for the same order returns the provider
      order id the first call obtained, without another provider order, as
      long as the provider's id was not empty (an empty id is not taken as
      stored, and a second provider order would be created). */
  lemma CreateIntentIdempotent(t: Tables, cfg: Config, session: Option<SessionUser>, orderId: string,
                               provider: Provider, again: Provider)
    requires TablesValid(t)
    requires CreateIntentStep(t, cfg, session, orderId, provider).outcome.reply.Ok?
    requires CreateIntentStep(t, cfg, session, orderId, provider).outcome.reply.value.razorpayOrderId != ""
    ensures var first := CreateIntentStep(t, cfg, session, orderId, provider).outcome;
            var second := CreateIntentStep(first.tables, cfg, session, orderId, again);
            second.calls == [] && second.outcome.tables == first.tables && second.outcome.reply.Ok?
            && second.outcome.reply.value.razorpayOrderId == first.reply.value.razorpayOrderId
  {
    var i := FindOwnedOrder(t.orders, Trim(orderId), session.value.id).value;
    if IsSet(t.orders[i].payment.orderId) {
      CreateIntentReuses(t, cfg, session, orderId, provider, i);
      CreateIntentReuses(t, cfg, session, orderId, again, i);
    } else {
      CreateIntentCreates(t, cfg, session, orderId, provider, i);
      var request := ProviderRequest(t.orders[i].total, Currency, "order_" + Trim(orderId));
      var created := Intended(t, i, provider(request).value);
      SameOrderIdsKeepValid(t.orders, created.orders);
      FindOwnedOrderAt(created.orders, i, session.value.id);
      IntentIsUnpaid(t.orders[i].payment, provider(request).value.id);
      CreateIntentReuses(created, cfg, session, orderId, again, i);
    }
  }

  /** The create handler. The provider order id and the amount are local
      variables that start as the stored id and the order's total and are
      replaced by the provider's answer when an order has to be created. */
  method CreateIntent(db: Db, cfg: Config, session: Option<SessionUser>, orderId: string, provider: Provider)
    returns (r: Reply<Intent>, calls: seq<ProviderRequest>)
    requires db.Valid()
    modifies db
    ensures Charge(Outcome(r, db.Contents()), calls) == CreateIntentStep(old(db.Contents()), cfg, session, orderId, provider)
    ensures db.Valid()
  {
    if session.None? { return Error(401, NotAuthenticated), []; }
    if !IsConfigured(cfg) { return Error(501, NotConfigured), []; }
    var id := Trim(orderId);
    if id == "" { return Error(400, OrderIdRequired), []; }
    var found := FindOwnedOrder(db.orders, id, session.value.id);
    if found.None? { return Error(404, OrderNotFound), []; }
    r, calls := ChargeRow(db, cfg, session.value.id, id, found.value, provider);
  }

  method ChargeRow(db: Db, cfg: Config, userId: string, id: string, i: nat, provider: Provider)
    returns (r: Reply<Intent>, calls: seq<ProviderRequest>)
    requires db.Valid() && i < |db.orders|
    modifies db
    ensures Charge(Outcome(r, db.Contents()), calls) == ChargeOrder(old(db.Contents()), cfg, userId, id, i, provider)
    ensures db.Valid()
  {
    calls := [];
    var row := db.orders[i];
    if !(row.total > 0) { return Error(400, NoPaymentRequired), calls; }
    if IsPaid(row.payment) { return Error(400, AlreadyPaid), calls; }
    var razorpayOrderId := row.payment.orderId;
    var amount := row.total;
    if !IsSet(razorpayOrderId) {
      var request := ProviderRequest(amount, Currency, "order_" + id);
      calls := calls + [request];
      var answer := provider(request);
      if answer.None? { return Error(500, CreateFailed), calls; }
      razorpayOrderId := Some(answer.value.id);
      amount := answer.value.amount;
      var orders := RecordIntent(db.orders, id, userId, razorpayOrderId.value);
      SameOrderIdsKeepValid(db.orders, orders);
      db.orders := orders;
    }
    r := Ok(Intent(Trim(cfg.razorpayKeyId), razorpayOrderId.value, amount, Currency, id));
  }

  // ---------------------------------------------------------------------------
  // POST /razorpay/verify

  /** The four trimmed fields are all present. */
  predicate ReceiptComplete(rc: Receipt) {
    Trim(rc.orderId) != "" && Trim(rc.razorpayOrderId) != ""
    && Trim(rc.razorpayPaymentId) != "" && Trim(rc.razorpaySignature) != ""
  }

  /** The receipt with its four fields trimmed. */
  function TrimmedReceipt(rc: Receipt): Receipt {
    Receipt(Trim(rc.orderId), Trim(rc.razorpayOrderId), Trim(rc.razorpayPaymentId), Trim(rc.razorpaySignature))
  }

  /** The signature field is, character for character, the HMAC of the two
      id fields as given. */
  predicate SignatureMatches(cfg: Config, rc: Receipt, hmac: Hmac) {
    hmac(Trim(cfg.razorpayKeySecret), SignedMessage(rc.razorpayOrderId, rc.razorpayPaymentId)) == rc.razorpaySignature
  }

  /** Spaces around the receipt's fields never change the verdict. */
  lemma SignatureIgnoresPadding(cfg: Config, rc: Receipt, hmac: Hmac)
    ensures SignatureValid(cfg, rc, hmac) <==> SignatureValid(cfg, TrimmedReceipt(rc), hmac)
  {
  }

  /** The supplied signature is the HMAC of the trimmed ids under the trimmed
      secret, compared as strings. */
  predicate SignatureValid(cfg: Config, rc: Receipt, hmac: Hmac)
    ensures SignatureValid(cfg, rc, hmac) <==> SignatureMatches(cfg, TrimmedReceipt(rc), hmac)
  {
    hmac(Trim(cfg.razorpayKeySecret), SignedMessage(Trim(rc.razorpayOrderId), Trim(rc.razorpayPaymentId)))
      == Trim(rc.razorpaySignature)
  }

  /** POST /razorpay/verify. Session, configuration, the four fields and the
      signature are checked before the database is read; what happens to the
      order is `SettleOrder`. */
  function VerifyPaymentStep(t: Tables, cfg: Config, session: Option<SessionUser>, rc: Receipt, hmac: Hmac, now: int)
    : (o: Outcome<()>)
    ensures o.tables.users == t.users && o.tables.otps == t.otps && |o.tables.orders| == |t.orders|
    ensures session.None? ==> o == Outcome(Error(401, NotAuthenticated), t)
    ensures session.Some? && !IsConfigured(cfg) ==> o == Outcome(Error(501, NotConfigured), t)
    ensures session.Some? && IsConfigured(cfg) && !ReceiptComplete(rc) ==>
              o == Outcome(Error(400, MissingVerificationFields), t)
    ensures session.Some? && IsConfigured(cfg) && ReceiptComplete(rc) && !SignatureValid(cfg, rc, hmac) ==>
              o == Outcome(Error(400, InvalidSignature), t)
  {
    if session.None? then Outcome(Error(401, NotAuthenticated), t)
    else if !IsConfigured(cfg) then Outcome(Error(501, NotConfigured), t)
    else if !ReceiptComplete(rc) then Outcome(Error(400, MissingVerificationFields), t)
    else if !SignatureValid(cfg, rc, hmac) then Outcome(Error(400, InvalidSignature), t)
    else SettleOrder(t, session.value.id, Trim(rc.orderId), Trim(rc.razorpayOrderId),
                     Trim(rc.razorpayPaymentId), Trim(rc.razorpaySignature), now)
  }

  /** The verify handler past the signature check: the order must be the
      user's, and a provider order id it already carries must be the one
      presented; then the payment is recorded, whether paid before or not. */
  function SettleOrder(t: Tables, userId: string, id: string, razorpayOrderId: string, razorpayPaymentId: string,
                       signature: string, now: int): (o: Outcome<()>)
    ensures o.tables.users == t.users && o.tables.otps == t.otps && SameOrderIds(t.orders, o.tables.orders)
  {
    match FindOwnedOrder(t.orders, id, userId)
    case None => Outcome(Error(404, OrderNotFound), t)
    case Some(i) =>
      var stored := t.orders[i].payment.orderId;
      if IsSet(stored) && stored.value != razorpayOrderId then Outcome(Error(400, OrderMismatch), t)
      else Outcome(Ok(()), t.(orders := RecordPayment(t.orders, id, userId, razorpayOrderId, razorpayPaymentId,
                                                       signature, now)))
  }

  lemma VerifyPaymentKeepsValid(t: Tables, cfg: Config, session: Option<SessionUser>, rc: Receipt, hmac: Hmac, now: int)
    requires TablesValid(t)
    ensures TablesValid(VerifyPaymentStep(t, cfg, session, rc, hmac, now).tables)
  {
    if Signed(cfg, session, rc, hmac) {
      VerifyPaymentSettles(t, cfg, session, rc, hmac, now);
      var o := VerifyPaymentStep(t, cfg, session, rc, hmac, now);
      SameOrderIdsKeepValid(t.orders, o.tables.orders);
    }
  }

  /** The request carries a complete receipt signed under the configured secret. */
  predicate Signed(cfg: Config, session: Option<SessionUser>, rc: Receipt, hmac: Hmac) {
    session.Some? && IsConfigured(cfg) && ReceiptComplete(rc) && SignatureValid(cfg, rc, hmac)
  }

  lemma VerifyPaymentSettles(t: Tables, cfg: Config, session: Option<SessionUser>, rc: Receipt, hmac: Hmac, now: int)
    requires Signed(cfg, session, rc, hmac)
    ensures VerifyPaymentStep(t, cfg, session, rc, hmac, now)
              == SettleOrder(t, session.value.id, Trim(rc.orderId), Trim(rc.razorpayOrderId),
                             Trim(rc.razorpayPaymentId), Trim(rc.razorpaySignature), now)
  {
  }

  /** The payment the verify handler records for a receipt. */
  function Settled(p: Payment, rc: Receipt, now: int): (q: Payment)
    ensures IsPaid(q)
  {
    LowerOfLowercase("paid");
    WithPayment(p, Trim(rc.razorpayOrderId), Trim(rc.razorpayPaymentId), Trim(rc.razorpaySignature), now)
  }

  /** The tables after the receipt is recorded on row `i`. */
  function Receipted(t: Tables, i: nat, rc: Receipt, now: int): (r: Tables)
    requires i < |t.orders|
    ensures SameOrderIds(t.orders, r.orders)
  {
    t.(orders := t.orders[i := t.orders[i].(payment := Settled(t.orders[i].payment, rc, now))])
  }

  /** A signed receipt for row `i`, an order the user owns: refused with 400
      when the order carries another provider order id, otherwise recorded
      on that row alone, paid, with the order's own status left as it was. */
  lemma VerifyPaymentRecords(t: Tables, cfg: Config, session: Option<SessionUser>, rc: Receipt, hmac: Hmac, now: int,
                             i: nat)
    requires UniqueOrderIds(t.orders) && Signed(cfg, session, rc, hmac)
    requires i < |t.orders| && IsOwned(t.orders[i], Trim(rc.orderId), session.value.id)
    ensures var o := VerifyPaymentStep(t, cfg, session, rc, hmac, now);
            var stored := t.orders[i].payment.orderId;
            (IsSet(stored) && stored.value != Trim(rc.razorpayOrderId) ==> o == Outcome(Error(400, OrderMismatch), t))
            && (!(IsSet(stored) && stored.value != Trim(rc.razorpayOrderId)) ==>
                  o == Outcome(Ok(()), Receipted(t, i, rc, now)))
  {
    VerifyPaymentSettles(t, cfg, session, rc, hmac, now);
    FindOwnedOrderAt(t.orders, i, session.value.id);
    RecordPaymentAt(t.orders, i, session.value.id, Trim(rc.razorpayOrderId), Trim(rc.razorpayPaymentId),
                    Trim(rc.razorpaySignature), now);
  }

  /** A signed receipt for an order id the user does not own gets 404. */
  lemma VerifyPaymentNotFound(t: Tables, cfg: Config, session: Option<SessionUser>, rc: Receipt, hmac: Hmac, now: int)
    requires Signed(cfg, session, rc, hmac)
    requires forall j :: 0 <= j < |t.orders| ==> !IsOwned(t.orders[j], Trim(rc.orderId), session.value.id)
    ensures VerifyPaymentStep(t, cfg, session, rc, hmac, now) == Outcome(Error(404, OrderNotFound), t)
  {
    VerifyPaymentSettles(t, cfg, session, rc, hmac, now);
    FindOwnedOrderIsFirst(t.orders, Trim(rc.orderId), session.value.id);
  }

  /** The verify handler. */
  method VerifyPayment(db: Db, cfg: Config, session: Option<SessionUser>, rc: Receipt, hmac: Hmac, now: int)
    returns (r: Reply<()>)
    requires db.Valid()
    modifies db
    ensures Outcome(r, db.Contents()) == VerifyPaymentStep(old(db.Contents()), cfg, session, rc, hmac, now)
    ensures db.Valid()
  {
    if session.None? { return Error(401, NotAuthenticated); }
    if !IsConfigured(cfg) { return Error(501, NotConfigured); }
    var id := Trim(rc.orderId);
    var razorpayOrderId := Trim(rc.razorpayOrderId);
    var razorpayPaymentId := Trim(rc.razorpayPaymentId);
    var signature := Trim(rc.razorpaySignature);
    if id == "" || razorpayOrderId == "" || razorpayPaymentId == "" || signature == "" {
      return Error(400, MissingVerificationFields);
    }
    var expected := hmac(Trim(cfg.razorpayKeySecret), SignedMessage(razorpayOrderId, razorpayPaymentId));
    if expected != signature { return Error(400, InvalidSignature); }
    r := SettleRow(db, session.value.id, id, razorpayOrderId, razorpayPaymentId, signature, now);
  }

  method SettleRow(db: Db, userId: string, id: string, razorpayOrderId: string, razorpayPaymentId: string,
                   signature: string, now: int) returns (r: Reply<()>)
    requires db.Valid()
    modifies db
    ensures Outcome(r, db.Contents()) == SettleOrder(old(db.Contents()), userId, id, razorpayOrderId, razorpayPaymentId,
                                                     signature, now)
    ensures db.Valid()
  {
    var existing := FindOwnedOrder(db.orders, id, userId);
    if existing.None? { return Error(404, OrderNotFound); }
    var stored := db.orders[existing.value].payment.orderId;
    if IsSet(stored) && stored.value != razorpayOrderId { return Error(400, OrderMismatch); }
    var orders := RecordPayment(db.orders, id, userId, razorpayOrderId, razorpayPaymentId, signature, now);
    SameOrderIdsKeepValid(db.orders, orders);
    db.orders := orders;
    r := Ok(());
  }

  // ---------------------------------------------------------------------------
  // The payment sub-state across requests

  /** After a successful verify, create refuses the order with 400, calls no
      provider and writes nothing. */
  lemma PaidOrderRefusesCreate(t: Tables, cfg: Config, session: Option<SessionUser>, rc: Receipt, hmac: Hmac,
                               now: int, provider: Provider)
    requires TablesValid(t) && VerifyPaymentStep(t, cfg, session, rc, hmac, now).reply.Ok?
    ensures var paid := VerifyPaymentStep(t, cfg, session, rc, hmac, now).tables;
            var c := CreateIntentStep(paid, cfg, session, rc.orderId, provider);
            c.calls == [] && c.outcome.tables == paid && c.outcome.reply.Error? && c.outcome.reply.status == 400
  {
    VerifyPaymentSettles(t, cfg, session, rc, hmac, now);
    var i := FindOwnedOrder(t.orders, Trim(rc.orderId), session.value.id).value;
    VerifyPaymentRecords(t, cfg, session, rc, hmac, now, i);
    var paid := Receipted(t, i, rc, now);
    SameOrderIdsKeepValid(t.orders, paid.orders);
    FindOwnedOrderAt(paid.orders, i, session.value.id);
    CreateIntentRefuses(paid, cfg, session, rc.orderId, provider, i);
  }

  /** Verifying a paid order again with the same provider order id succeeds
      and replaces the payment id, the signature and the paid time. */
  lemma ReverifyOverwrites(t: Tables, cfg: Config, session: Option<SessionUser>, first: Receipt, second: Receipt,
                           hmac: Hmac, now: int, later: int, i: nat)
    requires UniqueOrderIds(t.orders) && Signed(cfg, session, first, hmac) && Signed(cfg, session, second, hmac)
    requires i < |t.orders| && IsOwned(t.orders[i], Trim(first.orderId), session.value.id)
    requires VerifyPaymentStep(t, cfg, session, first, hmac, now).reply.Ok?
    requires Trim(second.orderId) == Trim(first.orderId) && Trim(second.razorpayOrderId) == Trim(first.razorpayOrderId)
    ensures var paid := VerifyPaymentStep(t, cfg, session, first, hmac, now).tables;
            VerifyPaymentStep(paid, cfg, session, second, hmac, later) == Outcome(Ok(()), Receipted(paid, i, second, later))
  {
    VerifyPaymentRecords(t, cfg, session, first, hmac, now, i);
    var paid := Receipted(t, i, first, now);
    SameOrderIdsKeepValid(t.orders, paid.orders);
    VerifyPaymentRecords(paid, cfg, session, second, hmac, later, i);
  }

  /** The payment life of an order: create records the provider's order with
      status 'created'; a receipt signed for that provider order then marks it
      'paid', and the order's own status is never touched. */
  lemma CreateThenVerify(t: Tables, cfg: Config, session: Option<SessionUser>, orderId: string, provider: Provider,
                         rc: Receipt, hmac: Hmac, now: int, i: nat, p: ProviderOrder)
    requires UniqueOrderIds(t.orders) && Charging(t, cfg, session, orderId, i)
    requires t.orders[i].total > 0 && !IsPaid(t.orders[i].payment) && !IsSet(t.orders[i].payment.orderId)
    requires provider(ProviderRequest(t.orders[i].total, Currency, "order_" + Trim(orderId))) == Some(p)
    requires Signed(cfg, session, rc, hmac) && Trim(rc.orderId) == Trim(orderId) && Trim(rc.razorpayOrderId) == p.id
    ensures var created := CreateIntentStep(t, cfg, session, orderId, provider).outcome.tables;
            var paid := VerifyPaymentStep(created, cfg, session, rc, hmac, now);
            created == Intended(t, i, p) && created.orders[i].payment.status == Some("created")
            && paid == Outcome(Ok(()), Receipted(created, i, rc, now))
            && paid.tables.orders[i].payment.status == Some("paid")
            && paid.tables.orders[i].status == t.orders[i].status
  {
    CreateIntentCreates(t, cfg, session, orderId, provider, i);
    var created := Intended(t, i, p);
    SameOrderIdsKeepValid(t.orders, created.orders);
    VerifyPaymentRecords(created, cfg, session, rc, hmac, now, i);
  }
}
