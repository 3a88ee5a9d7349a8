/**
 * Sign-up and order creation (`submitFormAndCreatePayment`) and the user
 * lookup (`getUserDetails`). Sign-up rejects a form whose email or mobile
 * is already registered, then creates the user, asks the gateway for an
 * order, creates the payment for that order and links the two, all in one
 * transaction, and sends the browser to the gateway's checkout page.
 */
module UserController {
  import opened Wrappers
  import opened JsText
  import opened Records
  import opened Store
  import PaymentController

  /** The `notes` the order carries; the verify callback later reads `userId` back from them. */
  datatype OrderNotes = OrderNotes(userId: string, userName: string, userEmail: string)

  /** The options passed to `razorpay.orders.create`. */
  datatype OrderOptions = OrderOptions(amount: int, currency: string, receipt: string, notes: OrderNotes)

  /** What `razorpay.orders.create(options)` does: throw, or resolve to an order with an id. */
  datatype CreateResult = CreateThrew | OrderCreated(orderId: string)

  type OrderCreator = OrderOptions -> CreateResult

  /** The `_id`s the driver assigns to the new user and payment documents. */
  datatype NewIds = NewIds(userId: string, paymentId: string)

  /** The three bytes `crypto.randomBytes(3)` returns. */
  type RandomBytes = (byte, byte, byte)

  /** A URL as its base and the query parameters `searchParams.set` adds, in order. */
  datatype CheckoutUrl = CheckoutUrl(base: string, params: seq<(string, string)>)

  datatype SubmitResponse =
    | SeeOther(location: CheckoutUrl)   // res.redirect(303, ...)
    | BadRequest(message: string)       // res.status(400).json({success: false, message})
    | PassedToNext                      // next(error)

  datatype Submission = Submission(stores: Stores, response: SubmitResponse)

  const DuplicateMessage: string := "User with this email or mobile number already exists"
  const DefaultAmount: int := 50000
  const CheckoutBase: string := "https://api.razorpay.com/v1/checkout/embedded"

  /**
   * `parseInt(process.env.PAYMENT_AMOUNT, 10) || 50000`: the configured
   * amount in paise, unless it is unset, not a number or zero.
   */
  function Amount(configured: Option<string>): (a: int)
    ensures a != 0
    // NaN and zero fall back to the default; any other parsed number is the amount.
    ensures var p := ParseInt(Interpolated(configured));
      && (p.None? || p.value == 0 ==> a == DefaultAmount)
      && (p.Some? && p.value != 0 ==> a == p.value)
  {
    var parsed := ParseInt(Interpolated(configured));
    if parsed.None? || parsed.value == 0 then DefaultAmount else parsed.value
  }

  /** A configured positive amount is used as it is. */
  lemma AmountOfConfigured(n: nat)
    requires n > 0
    ensures Amount(Some(DecimalString(n))) == n
  {
    ParseIntOfDecimal(n);
  }

  /**
   * A configured value with leading white space, an optional sign and a
   * run of digits, followed by anything that is not a digit, is used as
   * the number those digits make, signed; a zero value ("0", "-0", "00")
   * falls back to 50000.
   */
  lemma AmountOfNumeral(s: string, i: nat, j: nat, k: nat)
    requires i <= j < k <= |s|
    requires forall m :: 0 <= m < i ==> IsJsSpace(s[m])
    requires !IsJsSpace(s[i])
    requires j == if IsSign(s[i]) then i + 1 else i
    requires forall m :: j <= m < k ==> IsDigit(s[m])
    requires k == |s| || !IsDigit(s[k])
    ensures AllDigits(s[j..k])
    ensures var v := DigitsValue(s[j..k]); var n := if s[i] == '-' then -(v as int) else v;
      Amount(Some(s)) == if n == 0 then DefaultAmount else n
  {
    ParseIntOfNumeral(s, i, j, k);
  }

  /** An unset variable (read as "undefined") and a zero amount both fall back to 50000. */
  lemma AmountFallsBack()
    ensures Amount(None) == DefaultAmount
    ensures Amount(Some("0")) == DefaultAmount
  {
    var u := "undefined";
    assert u[0] == 'u';
    ParseIntOfNonNumeric(u);
    ParseIntOfDecimal(0);
    assert DecimalString(0) == "0";
  }

  /** `rcpt_<user id>_<six hex digits>`. */
  function Receipt(userId: string, random: RandomBytes): (r: string)
    ensures |r| == 12 + |userId|
    ensures r[..5] == "rcpt_" && r[5..5 + |userId|] == userId && r[5 + |userId|] == '_'
    ensures forall i :: 6 + |userId| <= i < |r| ==> IsLowerHex(r[i])
  {
    var suffix := HexOfBytes([random.0, random.1, random.2]);
    var r := "rcpt_" + userId + "_" + suffix;
    assert r[6 + |userId|..] == suffix;
    r
  }

  /** Equal receipts of one user come from equal random bytes: the suffix loses nothing. */
  lemma ReceiptDeterminesRandom(userId: string, r1: RandomBytes, r2: RandomBytes)
    requires Receipt(userId, r1) == Receipt(userId, r2)
    ensures r1 == r2
  {
    var b1, b2 := [r1.0, r1.1, r1.2], [r2.0, r2.1, r2.2];
    var pre := "rcpt_" + userId + "_";
    assert Receipt(userId, r1) == pre + HexOfBytes(b1) && Receipt(userId, r2) == pre + HexOfBytes(b2);
    assert (pre + HexOfBytes(b1))[|pre|..] == HexOfBytes(b1);
    assert (pre + HexOfBytes(b2))[|pre|..] == HexOfBytes(b2);
    HexOfBytesInjective(b1, b2);
    assert b1[0] == b2[0] && b1[1] == b2[1] && b1[2] == b2[2];
  }

  /** The order requested for a new user: amount, 'INR', receipt, and notes naming the user. */
  function OrderOptionsFor(userId: string, form: UserForm, cfg: Config, random: RandomBytes): (o: OrderOptions)
    ensures o.currency == "INR" && o.amount == Amount(cfg.paymentAmount) && o.receipt == Receipt(userId, random)
    ensures o.notes == OrderNotes(userId, form.name, form.email)
  {
    OrderOptions(Amount(cfg.paymentAmount), "INR", Receipt(userId, random), OrderNotes(userId, form.name, form.email))
  }

  /** The checkout page, prefilled, with the two callback destinations on this backend. */
  function Checkout(cfg: Config, orderId: string, form: UserForm): (r: CheckoutUrl)
    ensures r.base == CheckoutBase && |r.params| == 8
    // `searchParams.set` leaves one value per name, so each pair below is the only one under its name.
    ensures forall i, j :: 0 <= i < j < |r.params| ==> r.params[i].0 != r.params[j].0
  {
    var backend := Interpolated(cfg.backendUrl);
    CheckoutUrl(CheckoutBase, [
      ("key_id", Interpolated(cfg.razorpayKeyId)),
      ("order_id", orderId),
      ("name", "IACG Manga Course"),
      ("prefill[name]", form.name),
      ("prefill[email]", form.email),
      ("prefill[contact]", form.mobile),
      ("callback_url", backend + "/api/payment/verify"),
      ("cancel_url", FailureUrlPrefix(cfg) + orderId)])
  }

  /** Each parameter of the checkout page under its name (`Checkout` makes each name appear once). */
  lemma CheckoutParams(cfg: Config, orderId: string, form: UserForm)
    ensures var ps := Checkout(cfg, orderId, form).params;
      && ("key_id", Interpolated(cfg.razorpayKeyId)) in ps
      && ("order_id", orderId) in ps && ("name", "IACG Manga Course") in ps
      && ("prefill[name]", form.name) in ps && ("prefill[email]", form.email) in ps
      && ("prefill[contact]", form.mobile) in ps
      // The gateway posts the payment to this backend's verify route and sends a cancel to its failure route.
      && ("callback_url", Interpolated(cfg.backendUrl) + "/api/payment/verify") in ps
      && ("cancel_url", FailureUrlPrefix(cfg) + orderId) in ps
  {
    var ps := Checkout(cfg, orderId, form).params;
    assert ps[0].0 == "key_id" && ps[1].0 == "order_id" && ps[2].0 == "name";
    assert ps[7] == ("cancel_url", FailureUrlPrefix(cfg) + orderId);
  }

  /** This backend's failure route, up to the value of its `orderId` query parameter. */
  function FailureUrlPrefix(cfg: Config): string {
    Interpolated(cfg.backendUrl) + "/api/payment/failed?orderId="
  }

  /** The `orderId` a URL on the failure route carries: everything after the prefix. */
  function CancelOrderId(cfg: Config, url: string): (r: Option<string>)
    ensures r.Some? <==> |FailureUrlPrefix(cfg)| <= |url| && url[..|FailureUrlPrefix(cfg)|] == FailureUrlPrefix(cfg)
    ensures r.Some? ==> FailureUrlPrefix(cfg) + r.value == url
  {
    var p := FailureUrlPrefix(cfg);
    if |p| <= |url| && url[..|p|] == p then Some(url[|p|..]) else None
  }

  /** The `findOne({$or: [{email}, {mobile}]})` check: some user shares the email or the mobile. */
  predicate HasDuplicate(users: map<string, User>, form: UserForm) {
    exists k :: k in users && (users[k].email == form.email || users[k].mobile == form.mobile)
  }

  /** A new user document: the form's five fields, status pending and no payment yet. */
  function NewUser(id: string, form: UserForm): (u: User)
    ensures u.id == id && u.paymentStatus == Pending && u.paymentId.None?
    ensures u.name == form.name && u.mobile == form.mobile && u.email == form.email
    ensures u.city == form.city && u.experience == form.experience
  {
    User(id, form.name, form.mobile, form.email, form.city, form.experience, Pending, None)
  }

  /** `after` is `before` with exactly one new user and one new payment, linked to each other. */
  ghost predicate CreatedPair(
    before: Stores, after: Stores, form: UserForm, cfg: Config, ids: NewIds, random: RandomBytes, orderId: string)
  {
    && ids.userId !in before.users && orderId !in before.payments
    && after.users.Keys == before.users.Keys + {ids.userId}
    && after.payments.Keys == before.payments.Keys + {orderId}
    && (forall k :: k in before.users ==> after.users[k] == before.users[k])
    && (forall k :: k in before.payments ==> after.payments[k] == before.payments[k])
    && var u := after.users[ids.userId];
    && var p := after.payments[orderId];
    && u.id == ids.userId && u.paymentStatus == Pending && u.paymentId == Some(p.id)
    && u.name == form.name && u.mobile == form.mobile && u.email == form.email
    && u.city == form.city && u.experience == form.experience
    && p.id == ids.paymentId && p.userId == u.id && p.razorpayOrderId == orderId && p.status == Created
    && p.amount == Amount(cfg.paymentAmount) && p.receipt == Receipt(ids.userId, random)
    && p.razorpayPaymentId.None? && p.razorpaySignature.None?
  }

  function SubmitOutcome(
    s: Stores, form: UserForm, cfg: Config, ids: NewIds, random: RandomBytes,
    createOrder: OrderCreator, fault: Option<DbStep>)
    : (o: Submission)
    // A registered email or mobile is refused with 400 and nothing is created.
    ensures o.response.BadRequest? <==> !Throws(fault, FindDuplicate) && HasDuplicate(s.users, form)
    ensures o.response.BadRequest? ==> o.response.message == DuplicateMessage
    // No partial state: unless the call succeeds, the collections are as they were.
    ensures !o.response.SeeOther? ==> o.stores == s
    // On success the gateway created an order, one linked user and payment exist for it,
    // and the browser goes to that order's checkout page.
    ensures o.response.SeeOther? ==>
      && !HasDuplicate(s.users, form)
      && createOrder(OrderOptionsFor(ids.userId, form, cfg, random)).OrderCreated?
      && var orderId := createOrder(OrderOptionsFor(ids.userId, form, cfg, random)).orderId;
      && CreatedPair(s, o.stores, form, cfg, ids, random, orderId)
      && o.response.location == Checkout(cfg, orderId, form)
    // A lookup, insert, gateway call, link or commit that throws aborts: nothing is
    // written and the error goes to the next handler.
    ensures Throws(fault, FindDuplicate) ==> o == Submission(s, PassedToNext)
    ensures !HasDuplicate(s.users, form) ==>
      var created := createOrder(OrderOptionsFor(ids.userId, form, cfg, random));
      || Throws(fault, InsertUser) || Throws(fault, InsertPayment) || Throws(fault, LinkUser)
      || Throws(fault, Commit) || created.CreateThrew?
      || ids.userId in s.users || PaymentIdTaken(s.payments, ids.paymentId)
      || (created.OrderCreated? && created.orderId in s.payments)
      ==> o == Submission(s, PassedToNext)
    // When nothing throws and the new ids are free, the call succeeds.
    ensures fault.None? && !HasDuplicate(s.users, form) && ids.userId !in s.users
      && !PaymentIdTaken(s.payments, ids.paymentId)
      && createOrder(OrderOptionsFor(ids.userId, form, cfg, random)).OrderCreated?
      && createOrder(OrderOptionsFor(ids.userId, form, cfg, random)).orderId !in s.payments
      ==> o.response.SeeOther?
  {
    if Throws(fault, FindDuplicate) then Submission(s, PassedToNext)
    else if HasDuplicate(s.users, form) then Submission(s, BadRequest(DuplicateMessage))
    else if Throws(fault, InsertUser) || ids.userId in s.users then Submission(s, PassedToNext)
    else
      var options := OrderOptionsFor(ids.userId, form, cfg, random);
      match createOrder(options)
      case CreateThrew => Submission(s, PassedToNext)
      case OrderCreated(orderId) =>
        if || Throws(fault, InsertPayment) || orderId in s.payments || PaymentIdTaken(s.payments, ids.paymentId)
           || Throws(fault, LinkUser) || Throws(fault, Commit)
        then Submission(s, PassedToNext)
        else
          var payment := Payment(ids.paymentId, ids.userId, orderId, options.amount, options.receipt, Created, None, None);
          var user := NewUser(ids.userId, form).(paymentId := Some(ids.paymentId));
          Submission(Stores(s.payments[orderId := payment], s.users[ids.userId := user]), SeeOther(Checkout(cfg, orderId, form)))
  }

  /**
   * The part of sign-up inside the open transaction: save the user, create
   * the gateway order, save the payment, link the user to it and commit.
   * When any call throws, the caller must abort.
   */
  method CreateLinkedRecords(
    db: Db, user: User, options: OrderOptions, paymentId: string, createOrder: OrderCreator, fault: Option<DbStep>)
    returns (threw: bool, orderId: string)
    requires db.snapshot.Some?
    modifies db
    ensures threw <==> (|| Throws(fault, InsertUser) || user.id in old(db.users) || createOrder(options).CreateThrew?
                        || Throws(fault, InsertPayment) || createOrder(options).orderId in old(db.payments)
                        || PaymentIdTaken(old(db.payments), paymentId)
                        || Throws(fault, LinkUser) || Throws(fault, Commit))
    ensures threw ==> db.snapshot == old(db.snapshot)
    ensures !threw ==> db.snapshot == None && orderId == createOrder(options).orderId
    ensures !threw ==> db.payments == old(db.payments)[orderId :=
      Payment(paymentId, user.id, orderId, options.amount, options.receipt, Created, None, None)]
    ensures !threw ==> db.users == old(db.users)[user.id := user.(paymentId := Some(paymentId))]
  {
    orderId := "";
    threw := db.InsertUser(user, Throws(fault, InsertUser));
    if threw {
      return;
    }
    var order := createOrder(options);
    if order.CreateThrew? {
      threw := true;
      return;
    }
    orderId := order.orderId;
    var payment := Payment(paymentId, user.id, orderId, options.amount, options.receipt, Created, None, None);
    threw := SavePaymentAndLink(db, payment, fault);
  }

  /** Saves the new payment, points its (just saved) user at it, and commits. */
  method SavePaymentAndLink(db: Db, payment: Payment, fault: Option<DbStep>) returns (threw: bool)
    requires db.snapshot.Some? && payment.userId in db.users
    modifies db
    ensures threw <==> (|| Throws(fault, InsertPayment) || payment.razorpayOrderId in old(db.payments)
                        || PaymentIdTaken(old(db.payments), payment.id)
                        || Throws(fault, LinkUser) || Throws(fault, Commit))
    ensures threw ==> db.snapshot == old(db.snapshot)
    ensures !threw ==> db.snapshot == None
    ensures !threw ==> db.payments == old(db.payments)[payment.razorpayOrderId := payment]
    ensures !threw ==> db.users == old(db.users)[payment.userId := old(db.users)[payment.userId].(paymentId := Some(payment.id))]
  {
    threw := db.InsertPayment(payment, Throws(fault, InsertPayment));
    if !threw {
      threw := db.SetUserPaymentId(payment.userId, payment.id, Throws(fault, LinkUser));
    }
    if !threw {
      threw := db.CommitTransaction(Throws(fault, Commit));
    }
  }

  /** `submitFormAndCreatePayment`, for a form the validator accepted; returns the response sent. */
  method SubmitFormAndCreatePayment(
    db: Db, form: UserForm, cfg: Config, ids: NewIds, random: RandomBytes,
    createOrder: OrderCreator, fault: Option<DbStep>)
    returns (response: SubmitResponse)
    requires db.snapshot == None
    modifies db
    ensures db.snapshot == None
    ensures var o := SubmitOutcome(old(db.State()), form, cfg, ids, random, createOrder, fault);
      db.State() == o.stores && response == o.response
  {
    db.StartTransaction();
    if Throws(fault, FindDuplicate) {
      db.AbortTransaction();
      response := PassedToNext;
    } else if HasDuplicate(db.users, form) {
      // returns without aborting; ending the session discards the empty transaction
      response := BadRequest(DuplicateMessage);
    } else {
      var options := OrderOptionsFor(ids.userId, form, cfg, random);
      var threw, orderId := CreateLinkedRecords(db, NewUser(ids.userId, form), options, ids.paymentId, createOrder, fault);
      if threw {
        db.AbortTransaction();
        response := PassedToNext;
      } else {
        response := SeeOther(Checkout(cfg, orderId, form));
      }
    }
    db.EndSession();
  }

  /** Sign-up keeps every record filed under its key, contacts unique, ids unique and links intact. */
  lemma SubmitPreservesValid(
    s: Stores, form: UserForm, cfg: Config, ids: NewIds, random: RandomBytes,
    createOrder: OrderCreator, fault: Option<DbStep>)
    requires Valid(s)
    ensures Valid(SubmitOutcome(s, form, cfg, ids, random, createOrder, fault).stores)
  {
    var o := SubmitOutcome(s, form, cfg, ids, random, createOrder, fault);
    if o.response.SeeOther? {
      var options := OrderOptionsFor(ids.userId, form, cfg, random);
      var orderId := createOrder(options).orderId;
      var p := Payment(ids.paymentId, ids.userId, orderId, options.amount, options.receipt, Created, None, None);
      var u := NewUser(ids.userId, form).(paymentId := Some(ids.paymentId));
      assert o.stores == Stores(s.payments[orderId := p], s.users[ids.userId := u]);
      AddUserKeepsContactsUnique(s.users, ids.userId, u);
      AddPaymentKeepsIdsUnique(s.payments, orderId, p);
      AddLinkedPairKeepsLinks(s, u, p);
    }
  }

  /**
   * The duplicate lookup is exactly the guard the unique indexes need: a
   * new user keeps every email and mobile unique if and only if no
   * registered user shares the form's email or mobile.
   */
  lemma DuplicateCheckGuardsUniqueness(users: map<string, User>, id: string, form: UserForm)
    requires UniqueContacts(users) && id !in users
    ensures !HasDuplicate(users, form) <==> UniqueContacts(users[id := NewUser(id, form)])
  {
    var r := users[id := NewUser(id, form)];
    if HasDuplicate(users, form) {
      var k :| k in users && (users[k].email == form.email || users[k].mobile == form.mobile);
      assert k in r && id in r && k != id && r[k] == users[k];
    } else {
      AddUserKeepsContactsUnique(users, id, NewUser(id, form));
    }
  }

  /** A user whose email and mobile are both unregistered keeps contacts unique. */
  lemma AddUserKeepsContactsUnique(users: map<string, User>, id: string, u: User)
    requires UniqueContacts(users) && id !in users
    requires forall k :: k in users ==> users[k].email != u.email && users[k].mobile != u.mobile
    ensures UniqueContacts(users[id := u])
  {
    var r := users[id := u];
    forall a, b | a in r && b in r && a != b
      ensures r[a].email != r[b].email && r[a].mobile != r[b].mobile
    {
      if a == id || b == id {
        var other := if a == id then b else a;
        assert other in users;
      }
    }
  }

  /** A payment filed under a new key with an unused document id keeps ids unique. */
  lemma AddPaymentKeepsIdsUnique(payments: map<string, Payment>, key: string, p: Payment)
    requires UniquePaymentIds(payments) && key !in payments && !PaymentIdTaken(payments, p.id)
    ensures UniquePaymentIds(payments[key := p])
  {
    var r := payments[key := p];
    forall a, b | a in r && b in r && a != b
      ensures r[a].id != r[b].id
    {
      if a == key || b == key {
        var other := if a == key then b else a;
        assert other in payments;
      }
    }
  }

  /** A new user and a payment pointing at each other keep every link intact. */
  lemma AddLinkedPairKeepsLinks(s: Stores, u: User, p: Payment)
    requires Linked(s) && u.id !in s.users
    requires p.userId == u.id && u.paymentId == Some(p.id)
    ensures Linked(Stores(s.payments[p.razorpayOrderId := p], s.users[u.id := u]))
  {
    var r := Stores(s.payments[p.razorpayOrderId := p], s.users[u.id := u]);
    forall k | k in r.payments
      ensures r.payments[k].userId in r.users && r.users[r.payments[k].userId].paymentId == Some(r.payments[k].id)
    {
      if k != p.razorpayOrderId {
        assert s.payments[k].userId in s.users;
      }
    }
  }

  /**
   * End to end: after a successful sign-up, an authentic callback for the
   * new order, whose notes the gateway returns as they were sent, marks
   * the new payment paid and the new user completed.
   */
  lemma SignUpThenAuthenticCallbackPays(
    s: Stores, form: UserForm, cfg: Config, ids: NewIds, random: RandomBytes, createOrder: OrderCreator,
    req: PaymentController.Request, hmacHex: PaymentController.HmacHex, fetch: PaymentController.OrderFetcher)
    requires ids.userId != ""
    requires SubmitOutcome(s, form, cfg, ids, random, createOrder, None).response.SeeOther?
    requires var orderId := createOrder(OrderOptionsFor(ids.userId, form, cfg, random)).orderId;
      && PaymentController.ReadCallback(req).Some?
      && PaymentController.ReadCallback(req).value.orderId == orderId
      && PaymentController.IsAuthentic(hmacHex, cfg.razorpayKeySecret, PaymentController.ReadCallback(req).value)
      && fetch(orderId) == PaymentController.Order(Some(OrderOptionsFor(ids.userId, form, cfg, random).notes.userId))
    ensures var after := SubmitOutcome(s, form, cfg, ids, random, createOrder, None).stores;
      var o := PaymentController.VerifyOutcome(after, req, cfg, hmacHex, fetch, None);
      var orderId := createOrder(OrderOptionsFor(ids.userId, form, cfg, random)).orderId;
      var c := PaymentController.ReadCallback(req).value;
      && o.redirect == ToSuccess(c.paymentId)
      && o.stores.payments[orderId].status == Paid
      && o.stores.payments[orderId].razorpayPaymentId == Some(c.paymentId)
      && o.stores.payments[orderId].userId == ids.userId
      && o.stores.users[ids.userId].paymentStatus == Completed
  {
  }

  /** The cancel destination of a checkout page carries back exactly its order id. */
  lemma CancelUrlCarriesOrder(cfg: Config, orderId: string, form: UserForm, cancelUrl: string)
    requires ("cancel_url", cancelUrl) in Checkout(cfg, orderId, form).params
    ensures CancelOrderId(cfg, cancelUrl) == Some(orderId)
  {
    var ps := Checkout(cfg, orderId, form).params;
    CheckoutParams(cfg, orderId, form);
    var i :| 0 <= i < |ps| && ps[i] == ("cancel_url", cancelUrl);
    assert ps[7] == ("cancel_url", FailureUrlPrefix(cfg) + orderId);
    assert ps[i].0 == ps[7].0;
    var url := FailureUrlPrefix(cfg) + orderId;
    assert url[..|FailureUrlPrefix(cfg)|] == FailureUrlPrefix(cfg);
  }

  /**
   * The cancel destination of a successful sign-up leads back to the new
   * order: the `orderId` it carries is the gateway's order id, and the
   * failure callback with that id cancels the new payment, fails the new
   * user and reports the cancellation.
   */
  lemma SignUpThenCancelCancels(
    s: Stores, form: UserForm, cfg: Config, ids: NewIds, random: RandomBytes, createOrder: OrderCreator,
    fetch: PaymentController.OrderFetcher, cancelUrl: string)
    requires ids.userId != ""
    requires SubmitOutcome(s, form, cfg, ids, random, createOrder, None).response.SeeOther?
    requires ("cancel_url", cancelUrl) in SubmitOutcome(s, form, cfg, ids, random, createOrder, None).response.location.params
    requires var orderId := createOrder(OrderOptionsFor(ids.userId, form, cfg, random)).orderId;
      && orderId != ""
      && fetch(orderId) == PaymentController.Order(Some(ids.userId))
    ensures var orderId := createOrder(OrderOptionsFor(ids.userId, form, cfg, random)).orderId;
      CancelOrderId(cfg, cancelUrl) == Some(orderId)
    ensures var after := SubmitOutcome(s, form, cfg, ids, random, createOrder, None).stores;
      var orderId := createOrder(OrderOptionsFor(ids.userId, form, cfg, random)).orderId;
      var req := PaymentController.Request("GET", map["orderId" := CancelOrderId(cfg, cancelUrl).value], map[]);
      var o := PaymentController.FailureOutcome(after, req, cfg, fetch, None);
      && o.redirect == ToCancel(UserCancelled)
      && o.stores.payments[orderId].status == Cancelled
      && o.stores.users[ids.userId].paymentStatus == UserStatus.Failed
  {
    var sub := SubmitOutcome(s, form, cfg, ids, random, createOrder, None);
    var orderId := createOrder(OrderOptionsFor(ids.userId, form, cfg, random)).orderId;
    CancelUrlCarriesOrder(cfg, orderId, form, cancelUrl);
    var after := sub.stores;
    assert orderId in after.payments && ids.userId in after.users;
    var req := PaymentController.Request("GET", map["orderId" := orderId], map[]);
    assert PaymentController.Truthy(PaymentController.Param(req.query, "orderId"));
    assert PaymentController.NotesUserId(fetch(orderId)) == Some(ids.userId);
    var settled := PaymentController.Settle(after, orderId, SetStatus(Cancelled), ids.userId, UserStatus.Failed);
    assert PaymentController.FailureOutcome(after, req, cfg, fetch, None) == PaymentController.Outcome(settled, ToCancel(UserCancelled));
  }

  // ---------------------------------------------------------------- getUserDetails

  datatype UserLookup =
    | Ok200(user: User, payment: Option<Payment>)   // the user, its payment populated
    | NotFound404(message: string)
    | LookupPassedToNext                            // next(error)

  /** `getUserDetails`: `User.findById(userId).populate('paymentId')`. */
  method GetUserDetails(db: Db, userId: string, throws: bool) returns (r: UserLookup)
    ensures r.NotFound404? <==> !throws && userId !in db.users
    ensures r.NotFound404? ==> r.message == "User not found"
    ensures r.Ok200? <==> !throws && userId in db.users
    ensures r.Ok200? ==> r.user == db.users[userId]
    ensures r.Ok200? ==> (r.payment.Some? <==>
      r.user.paymentId.Some? && PaymentIdTaken(db.payments, r.user.paymentId.value))
    ensures r.Ok200? && r.payment.Some? ==>
      r.payment.value in db.payments.Values && r.user.paymentId == Some(r.payment.value.id)
  {
    if throws {
      r := LookupPassedToNext;
    } else if userId !in db.users {
      r := NotFound404("User not found");
    } else {
      var user := db.users[userId];
      var payment: Option<Payment> := None;
      if user.paymentId.Some? && PaymentIdTaken(db.payments, user.paymentId.value) {
        var k :| k in db.payments && db.payments[k].id == user.paymentId.value;
        payment := Some(db.payments[k]);
      }
      r := Ok200(user, payment);
    }
  }
}
