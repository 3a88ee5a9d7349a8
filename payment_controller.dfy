/**
 * The two payment-gateway callbacks: `verifyPayment`, which checks the
 * signature the gateway attached to a completed checkout and settles the
 * payment and its user, and `handlePaymentFailure`, which records a
 * checkout the user abandoned. Each runs in one transaction: both record
 * writes are kept, or neither is.
 *
 * VerifyOutcome and FailureOutcome say what each call does to the
 * collections and where it redirects; the methods VerifyPayment and
 * HandlePaymentFailure perform the calls step by step on a Db and are
 * proved to agree with them.
 */
module PaymentController {
  import opened Wrappers
  import opened Records
  import opened Store

  /**
   * The lower-case hex HMAC-SHA256 (RFC 2104 over FIPS 180-4) of a message
   * under a key, as `crypto.createHmac('sha256', key).update(message).digest('hex')`
   * computes it; the model leaves it uninterpreted.
   */
  type HmacHex = (string, string) -> string

  /**
   * What `razorpay.orders.fetch(orderId)` does: throw, resolve to nothing,
   * or resolve to an order whose `notes.userId` may be absent.
   */
  datatype FetchResult = FetchThrew | NoOrder | Order(notesUserId: Option<string>)

  type OrderFetcher = string -> FetchResult

  /** The parts of an HTTP request the callbacks read. */
  datatype Request = Request(httpMethod: string, query: map<string, string>, body: map<string, string>)

  /** The collections after the call, and where the browser is sent. */
  datatype Outcome = Outcome(stores: Stores, redirect: Redirect)

  /** The three fields of a checkout callback. */
  datatype Callback = Callback(orderId: string, paymentId: string, signature: string)

  function Param(m: map<string, string>, key: string): Option<string> {
    if key in m then Some(m[key]) else None
  }

  /** JavaScript truthiness of a string that may be undefined. */
  predicate Truthy(v: Option<string>) {
    v.Some? && v.value != ""
  }

  /** The verify callback reads its fields from the query on GET and from the body otherwise. */
  function CallbackParams(req: Request): map<string, string> {
    if req.httpMethod == "GET" then req.query else req.body
  }

  /** The callback's three fields, or `None` when any of them is missing or empty. */
  function ReadCallback(req: Request): (c: Option<Callback>)
    ensures var p := CallbackParams(req);
      c.Some? <==> (Truthy(Param(p, "razorpay_order_id")) && Truthy(Param(p, "razorpay_payment_id"))
                    && Truthy(Param(p, "razorpay_signature")))
    ensures c.Some? ==> var p := CallbackParams(req);
      && p["razorpay_order_id"] == c.value.orderId
      && p["razorpay_payment_id"] == c.value.paymentId
      && p["razorpay_signature"] == c.value.signature
  {
    var p := CallbackParams(req);
    var o, i, g := Param(p, "razorpay_order_id"), Param(p, "razorpay_payment_id"), Param(p, "razorpay_signature");
    if Truthy(o) && Truthy(i) && Truthy(g) then Some(Callback(o.value, i.value, g.value)) else None
  }

  /** The message the gateway signs: the order id, `|`, then the payment id. */
  function SignedMessage(c: Callback): (m: string)
    ensures |m| == |c.orderId| + 1 + |c.paymentId| && m[|c.orderId|] == '|'
    ensures m[..|c.orderId|] == c.orderId && m[|c.orderId| + 1..] == c.paymentId
  {
    c.orderId + "|" + c.paymentId
  }

  /**
   * Gateway order ids contain no `|`, so the signed message names exactly
   * one pair of ids: a signature over it cannot be replayed for another
   * order or another payment.
   */
  lemma SignedMessageInjective(c1: Callback, c2: Callback)
    requires '|' !in c1.orderId && '|' !in c2.orderId
    requires SignedMessage(c1) == SignedMessage(c2)
    ensures c1.orderId == c2.orderId && c1.paymentId == c2.paymentId
  {
    var m := SignedMessage(c1);
    var n1, n2 := |c1.orderId|, |c2.orderId|;
    // Each order id ends where the message holds its first `|`.
    assert forall i :: 0 <= i < n1 ==> m[i] == c1.orderId[i] != '|';
    assert forall i :: 0 <= i < n2 ==> m[i] == c2.orderId[i] != '|';
    assert m[n1] == '|' && m[n2] == '|';
  }

  /**
   * The signature is authentic exactly when it equals, as a string, the hex
   * HMAC of the signed message under the server's key secret.
   */
  predicate IsAuthentic(hmacHex: HmacHex, secret: string, c: Callback) {
    hmacHex(secret, SignedMessage(c)) == c.signature
  }

  /** The user the gateway order names in `notes.userId`, when it names one. */
  function NotesUserId(f: FetchResult): (u: Option<string>)
    ensures u.Some? <==> f.Order? && Truthy(f.notesUserId)
    ensures u.Some? ==> u == f.notesUserId
  {
    if f.Order? && Truthy(f.notesUserId) then f.notesUserId else None
  }

  /** One of the two record writes of a settling call, or its commit, throws. */
  predicate SettleThrows(fault: Option<DbStep>) {
    Throws(fault, UpdatePayment) || Throws(fault, UpdateUser) || Throws(fault, Commit)
  }

  /** Both writes of a settling call: the payment of the order, then the user. */
  function Settle(s: Stores, orderId: string, update: PaymentUpdate, userId: string, status: UserStatus): (r: Stores)
    ensures r.payments.Keys == s.payments.Keys && r.users.Keys == s.users.Keys
    ensures orderId in s.payments ==> r.payments[orderId] == ApplyPaymentUpdate(s.payments[orderId], update)
    ensures userId in s.users ==> r.users[userId] == s.users[userId].(paymentStatus := status)
    // Nothing else changes, and an absent order or user is left alone.
    ensures forall k :: k in s.payments && k != orderId ==> r.payments[k] == s.payments[k]
    ensures forall k :: k in s.users && k != userId ==> r.users[k] == s.users[k]
    ensures orderId !in s.payments ==> r.payments == s.payments
    ensures userId !in s.users ==> r.users == s.users
  {
    Stores(UpdatePaymentByOrder(s.payments, orderId, update), SetUserStatus(s.users, userId, status))
  }

  // ---------------------------------------------------------------- verifyPayment

  function VerifyOutcome(
    s: Stores, req: Request, cfg: Config, hmacHex: HmacHex, fetch: OrderFetcher, fault: Option<DbStep>)
    : (o: Outcome)
    // A malformed callback changes nothing.
    ensures ReadCallback(req).None? ==> o == Outcome(s, ToCancel(MissingParams))
    // An order that cannot be tied to a user changes nothing, whatever the signature.
    ensures ReadCallback(req).Some? ==> var f := fetch(ReadCallback(req).value.orderId);
      f != FetchThrew && NotesUserId(f).None? ==> o == Outcome(s, ToCancel(InvalidOrder))
    // All or nothing: either no record changes, or both writes are kept together.
    ensures o.stores == s || (
      && ReadCallback(req).Some?
      && var c := ReadCallback(req).value;
      && NotesUserId(fetch(c.orderId)).Some?
      && var u := NotesUserId(fetch(c.orderId)).value;
      if IsAuthentic(hmacHex, cfg.razorpayKeySecret, c)
      then o.stores == Settle(s, c.orderId, MarkPaid(c.paymentId, c.signature), u, Completed)
      else o.stores == Settle(s, c.orderId, SetStatus(PaymentStatus.Failed), u, UserStatus.Failed))
    // The success page is reached exactly when the callback is well formed, tied to a user,
    // authentic and written without error; it carries the callback's payment id.
    ensures o.redirect.ToSuccess? <==> (
      && ReadCallback(req).Some?
      && NotesUserId(fetch(ReadCallback(req).value.orderId)).Some?
      && !SettleThrows(fault)
      && IsAuthentic(hmacHex, cfg.razorpayKeySecret, ReadCallback(req).value))
    ensures o.redirect.ToSuccess? ==> o.redirect.paymentId == ReadCallback(req).value.paymentId
    // Success wrote the payment as paid, with the gateway's ids, and the user as completed.
    ensures o.redirect.ToSuccess? ==>
      && ReadCallback(req).Some?
      && var c := ReadCallback(req).value;
      && NotesUserId(fetch(c.orderId)).Some?
      && o.stores == Settle(s, c.orderId, MarkPaid(c.paymentId, c.signature), NotesUserId(fetch(c.orderId)).value, Completed)
    // A forged callback on a known order is recorded as a failure, never as paid.
    ensures o.redirect == ToCancel(SignatureFailed) <==> (
      && ReadCallback(req).Some?
      && NotesUserId(fetch(ReadCallback(req).value.orderId)).Some?
      && !SettleThrows(fault)
      && !IsAuthentic(hmacHex, cfg.razorpayKeySecret, ReadCallback(req).value))
    // A forged callback wrote the payment and the user as failed.
    ensures o.redirect == ToCancel(SignatureFailed) ==>
      && ReadCallback(req).Some?
      && var c := ReadCallback(req).value;
      && NotesUserId(fetch(c.orderId)).Some?
      && o.stores == Settle(s, c.orderId, SetStatus(PaymentStatus.Failed), NotesUserId(fetch(c.orderId)).value, UserStatus.Failed)
    // A throwing fetch, write or commit aborts: nothing is written and the answer is server_error.
    ensures ReadCallback(req).Some? ==> var f := fetch(ReadCallback(req).value.orderId);
      f.FetchThrew? || (NotesUserId(f).Some? && SettleThrows(fault)) ==> o == Outcome(s, ToCancel(ServerError))
    ensures o.redirect == ToCancel(ServerError) ==> o.stores == s
    ensures o.redirect.ToSuccess? || o.redirect.marker in {MissingParams, InvalidOrder, SignatureFailed, ServerError}
  {
    match ReadCallback(req)
    case None => Outcome(s, ToCancel(MissingParams))
    case Some(c) =>
      var authentic := IsAuthentic(hmacHex, cfg.razorpayKeySecret, c);
      var order := fetch(c.orderId);
      if order.FetchThrew? then Outcome(s, ToCancel(ServerError))
      else match NotesUserId(order)
        case None => Outcome(s, ToCancel(InvalidOrder))
        case Some(userId) =>
          if SettleThrows(fault) then Outcome(s, ToCancel(ServerError))
          else if authentic then
            Outcome(Settle(s, c.orderId, MarkPaid(c.paymentId, c.signature), userId, Completed), ToSuccess(c.paymentId))
          else
            Outcome(Settle(s, c.orderId, SetStatus(PaymentStatus.Failed), userId, UserStatus.Failed), ToCancel(SignatureFailed))
  }

  /**
   * Writes the payment and then the user inside the open transaction and
   * commits; when any of the three calls throws, the caller must abort.
   */
  method SettleInTransaction(
    db: Db, orderId: string, update: PaymentUpdate, userId: string, status: UserStatus, fault: Option<DbStep>)
    returns (threw: bool)
    requires db.snapshot.Some?
    modifies db
    ensures threw == SettleThrows(fault)
    ensures threw ==> db.snapshot == old(db.snapshot)
    ensures !threw ==> db.snapshot == None && db.State() == Settle(old(db.State()), orderId, update, userId, status)
  {
    threw := db.FindOneAndUpdatePayment(orderId, update, Throws(fault, UpdatePayment));
    if !threw {
      threw := db.FindByIdAndUpdateUser(userId, status, Throws(fault, UpdateUser));
    }
    if !threw {
      threw := db.CommitTransaction(Throws(fault, Commit));
    }
  }

  /** `verifyPayment`: returns the URL the browser is redirected to. */
  method VerifyPayment(
    db: Db, req: Request, cfg: Config, hmacHex: HmacHex, fetch: OrderFetcher, fault: Option<DbStep>)
    returns (url: string)
    requires db.snapshot == None
    modifies db
    ensures db.snapshot == None
    ensures var o := VerifyOutcome(old(db.State()), req, cfg, hmacHex, fetch, fault);
      db.State() == o.stores && url == RedirectUrl(cfg, o.redirect)
  {
    db.StartTransaction();
    var redirect: Redirect;
    var callback := ReadCallback(req);
    if callback.None? {
      db.AbortTransaction();
      redirect := ToCancel(MissingParams);
    } else {
      var c := callback.value;
      var isAuthentic := hmacHex(cfg.razorpayKeySecret, c.orderId + "|" + c.paymentId) == c.signature;
      var order := fetch(c.orderId);
      if order.FetchThrew? {
        db.AbortTransaction();
        redirect := ToCancel(ServerError);
      } else if NotesUserId(order).None? {
        db.AbortTransaction();
        redirect := ToCancel(InvalidOrder);
      } else {
        var userId := NotesUserId(order).value;
        var threw;
        if isAuthentic {
          threw := SettleInTransaction(db, c.orderId, MarkPaid(c.paymentId, c.signature), userId, Completed, fault);
          redirect := ToSuccess(c.paymentId);
        } else {
          threw := SettleInTransaction(db, c.orderId, SetStatus(PaymentStatus.Failed), userId, UserStatus.Failed, fault);
          redirect := ToCancel(SignatureFailed);
        }
        if threw {
          db.AbortTransaction();
          redirect := ToCancel(ServerError);
        }
      }
    }
    db.EndSession();
    url := RedirectUrl(cfg, redirect);
  }

  // ---------------------------------------------------------------- handlePaymentFailure

  function FailureOutcome(s: Stores, req: Request, cfg: Config, fetch: OrderFetcher, fault: Option<DbStep>)
    : (o: Outcome)
    // Whatever happens, the browser ends on the cancel destination.
    ensures o.redirect.ToCancel? && o.redirect.marker in {MissingOrderId, UserCancelled, ServerError}
    ensures o.redirect == ToCancel(MissingOrderId) <==> !Truthy(Param(req.query, "orderId"))
    // All or nothing: either no record changes, or the payment is cancelled and its user failed together.
    ensures o.stores == s || (
      && Truthy(Param(req.query, "orderId"))
      && var orderId := req.query["orderId"];
      && NotesUserId(fetch(orderId)).Some?
      && o.redirect == ToCancel(UserCancelled)
      && o.stores == Settle(s, orderId, SetStatus(Cancelled), NotesUserId(fetch(orderId)).value, UserStatus.Failed))
    // With a user in the order's notes and no error, both records are updated and the cancellation reported.
    ensures Truthy(Param(req.query, "orderId")) && !SettleThrows(fault) ==> var orderId := req.query["orderId"];
      NotesUserId(fetch(orderId)).Some? ==>
        o == Outcome(Settle(s, orderId, SetStatus(Cancelled), NotesUserId(fetch(orderId)).value, UserStatus.Failed),
                     ToCancel(UserCancelled))
    // Without one the call still commits and reports a user cancellation, having written nothing.
    ensures Truthy(Param(req.query, "orderId")) && !Throws(fault, Commit) ==> var f := fetch(req.query["orderId"]);
      f != FetchThrew && NotesUserId(f).None? ==> o == Outcome(s, ToCancel(UserCancelled))
    // A throwing fetch, write or commit aborts: nothing is written and the answer is server_error.
    ensures Truthy(Param(req.query, "orderId")) ==> var f := fetch(req.query["orderId"]);
      || f.FetchThrew?
      || (NotesUserId(f).Some? && SettleThrows(fault))
      || (NotesUserId(f).None? && Throws(fault, Commit))
      ==> o == Outcome(s, ToCancel(ServerError))
    // and server_error comes only from such a throw.
    ensures o.redirect == ToCancel(ServerError) ==>
      && Truthy(Param(req.query, "orderId"))
      && var f := fetch(req.query["orderId"]);
      || f.FetchThrew?
      || (NotesUserId(f).Some? && SettleThrows(fault))
      || (NotesUserId(f).None? && Throws(fault, Commit))
  {
    var orderId := Param(req.query, "orderId");
    if !Truthy(orderId) then Outcome(s, ToCancel(MissingOrderId))
    else
      var order := fetch(orderId.value);
      if order.FetchThrew? then Outcome(s, ToCancel(ServerError))
      else match NotesUserId(order)
        case Some(userId) =>
          if SettleThrows(fault) then Outcome(s, ToCancel(ServerError))
          else Outcome(Settle(s, orderId.value, SetStatus(Cancelled), userId, UserStatus.Failed), ToCancel(UserCancelled))
        case None =>
          if Throws(fault, Commit) then Outcome(s, ToCancel(ServerError))
          else Outcome(s, ToCancel(UserCancelled))
  }

  /** `handlePaymentFailure`: returns the URL the browser is redirected to. */
  method HandlePaymentFailure(db: Db, req: Request, cfg: Config, fetch: OrderFetcher, fault: Option<DbStep>)
    returns (url: string)
    requires db.snapshot == None
    modifies db
    ensures db.snapshot == None
    ensures var o := FailureOutcome(old(db.State()), req, cfg, fetch, fault);
      db.State() == o.stores && url == RedirectUrl(cfg, o.redirect)
  {
    db.StartTransaction();
    var redirect: Redirect;
    var orderId := Param(req.query, "orderId");
    if !Truthy(orderId) {
      db.AbortTransaction();
      redirect := ToCancel(MissingOrderId);
    } else {
      var order := fetch(orderId.value);
      var threw := order.FetchThrew?;
      if !threw && NotesUserId(order).Some? {
        threw := SettleInTransaction(db, orderId.value, SetStatus(Cancelled), NotesUserId(order).value, UserStatus.Failed, fault);
      } else if !threw {
        threw := db.CommitTransaction(Throws(fault, Commit));
      }
      if threw {
        db.AbortTransaction();
        redirect := ToCancel(ServerError);
      } else {
        redirect := ToCancel(UserCancelled);
      }
    }
    db.EndSession();
    url := RedirectUrl(cfg, redirect);
  }

  // ---------------------------------------------------------------- properties

  lemma ApplyPaymentUpdateIdempotent(p: Payment, u: PaymentUpdate)
    ensures ApplyPaymentUpdate(ApplyPaymentUpdate(p, u), u) == ApplyPaymentUpdate(p, u)
  {
  }

  /** Settling the same order twice is settling it once. */
  lemma SettleIdempotent(s: Stores, orderId: string, update: PaymentUpdate, userId: string, status: UserStatus)
    ensures Settle(Settle(s, orderId, update, userId, status), orderId, update, userId, status)
         == Settle(s, orderId, update, userId, status)
  {
    var once := Settle(s, orderId, update, userId, status);
    var twice := Settle(once, orderId, update, userId, status);
    if orderId in s.payments {
      ApplyPaymentUpdateIdempotent(s.payments[orderId], update);
    }
    assert twice.payments == once.payments;
    assert twice.users == once.users;
  }

  /** Settling keeps every record's identity, contacts and links, so it keeps the invariant. */
  lemma SettlePreservesValid(s: Stores, orderId: string, update: PaymentUpdate, userId: string, status: UserStatus)
    requires Valid(s)
    ensures Valid(Settle(s, orderId, update, userId, status))
  {
    var r := Settle(s, orderId, update, userId, status);
    forall k | k in r.payments
      ensures r.payments[k].id == s.payments[k].id && r.payments[k].userId == s.payments[k].userId
      ensures r.payments[k].razorpayOrderId == s.payments[k].razorpayOrderId
    {
    }
    forall k | k in r.users
      ensures r.users[k].id == s.users[k].id && r.users[k].paymentId == s.users[k].paymentId
      ensures r.users[k].email == s.users[k].email && r.users[k].mobile == s.users[k].mobile
    {
    }
  }

  /** Delivering the same verify callback again leaves the collections and the redirect as they were. */
  lemma VerifyIdempotent(s: Stores, req: Request, cfg: Config, hmacHex: HmacHex, fetch: OrderFetcher, fault: Option<DbStep>)
    ensures var o := VerifyOutcome(s, req, cfg, hmacHex, fetch, fault);
      VerifyOutcome(o.stores, req, cfg, hmacHex, fetch, fault) == o
  {
    var o := VerifyOutcome(s, req, cfg, hmacHex, fetch, fault);
    if o.stores != s {
      var c := ReadCallback(req).value;
      var u := NotesUserId(fetch(c.orderId)).value;
      if IsAuthentic(hmacHex, cfg.razorpayKeySecret, c) {
        SettleIdempotent(s, c.orderId, MarkPaid(c.paymentId, c.signature), u, Completed);
      } else {
        SettleIdempotent(s, c.orderId, SetStatus(PaymentStatus.Failed), u, UserStatus.Failed);
      }
    }
  }

  /** Delivering the same failure callback again leaves the collections and the redirect as they were. */
  lemma FailureIdempotent(s: Stores, req: Request, cfg: Config, fetch: OrderFetcher, fault: Option<DbStep>)
    ensures var o := FailureOutcome(s, req, cfg, fetch, fault);
      FailureOutcome(o.stores, req, cfg, fetch, fault) == o
  {
    var o := FailureOutcome(s, req, cfg, fetch, fault);
    if o.stores != s {
      var orderId := req.query["orderId"];
      SettleIdempotent(s, orderId, SetStatus(Cancelled), NotesUserId(fetch(orderId)).value, UserStatus.Failed);
    }
  }

  lemma VerifyPreservesValid(s: Stores, req: Request, cfg: Config, hmacHex: HmacHex, fetch: OrderFetcher, fault: Option<DbStep>)
    requires Valid(s)
    ensures Valid(VerifyOutcome(s, req, cfg, hmacHex, fetch, fault).stores)
  {
    var o := VerifyOutcome(s, req, cfg, hmacHex, fetch, fault);
    if o.stores != s {
      var c := ReadCallback(req).value;
      var u := NotesUserId(fetch(c.orderId)).value;
      if IsAuthentic(hmacHex, cfg.razorpayKeySecret, c) {
        SettlePreservesValid(s, c.orderId, MarkPaid(c.paymentId, c.signature), u, Completed);
      } else {
        SettlePreservesValid(s, c.orderId, SetStatus(PaymentStatus.Failed), u, UserStatus.Failed);
      }
    }
  }

  lemma FailurePreservesValid(s: Stores, req: Request, cfg: Config, fetch: OrderFetcher, fault: Option<DbStep>)
    requires Valid(s)
    ensures Valid(FailureOutcome(s, req, cfg, fetch, fault).stores)
  {
    var o := FailureOutcome(s, req, cfg, fetch, fault);
    if o.stores != s {
      var orderId := req.query["orderId"];
      SettlePreservesValid(s, orderId, SetStatus(Cancelled), NotesUserId(fetch(orderId)).value, UserStatus.Failed);
    }
  }

  /** A callback whose signature does not check out never moves any payment to paid. */
  lemma ForgedNeverPays(s: Stores, req: Request, cfg: Config, hmacHex: HmacHex, fetch: OrderFetcher, fault: Option<DbStep>)
    requires ReadCallback(req).Some? ==> !IsAuthentic(hmacHex, cfg.razorpayKeySecret, ReadCallback(req).value)
    ensures var o := VerifyOutcome(s, req, cfg, hmacHex, fetch, fault);
      forall k :: k in o.stores.payments && o.stores.payments[k].status == Paid ==>
        k in s.payments && s.payments[k].status == Paid
  {
  }

  /**
   * There is no guard on the current status: a later forged callback turns
   * a paid payment into a failed one (keeping the gateway payment id the
   * earlier callback stored), and fails its user.
   */
  lemma ForgedCallbackOverwritesPaid(
    s: Stores, req: Request, cfg: Config, hmacHex: HmacHex, fetch: OrderFetcher, fault: Option<DbStep>)
    requires ReadCallback(req).Some?
    requires var c := ReadCallback(req).value;
      && c.orderId in s.payments && s.payments[c.orderId].status == Paid
      && NotesUserId(fetch(c.orderId)).Some? && !SettleThrows(fault)
      && !IsAuthentic(hmacHex, cfg.razorpayKeySecret, c)
    ensures var c := ReadCallback(req).value;
      var p := VerifyOutcome(s, req, cfg, hmacHex, fetch, fault).stores.payments[c.orderId];
      p.status == PaymentStatus.Failed && p.razorpayPaymentId == s.payments[c.orderId].razorpayPaymentId
    ensures var c := ReadCallback(req).value; var u := NotesUserId(fetch(c.orderId)).value;
      u in s.users ==> VerifyOutcome(s, req, cfg, hmacHex, fetch, fault).stores.users[u].paymentStatus == UserStatus.Failed
  {
  }

  /** Likewise a failure callback for an order already paid marks it cancelled. */
  lemma CancelOverwritesPaid(s: Stores, req: Request, cfg: Config, fetch: OrderFetcher, fault: Option<DbStep>)
    requires Truthy(Param(req.query, "orderId"))
    requires var orderId := req.query["orderId"];
      && orderId in s.payments && s.payments[orderId].status == Paid
      && NotesUserId(fetch(orderId)).Some? && !SettleThrows(fault)
    ensures var orderId := req.query["orderId"];
      FailureOutcome(s, req, cfg, fetch, fault).stores.payments[orderId].status == Cancelled
  {
  }
}
