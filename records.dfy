/**
 * The two persisted records (User and Payment), the pair of collections
 * that hold them, the environment configuration the controllers read, and
 * the redirect destinations of the payment callbacks.
 */
module Records {
  import opened Wrappers

  /** Payment.status: 'created' | 'paid' | 'failed' | 'cancelled'. */
  datatype PaymentStatus = Created | Paid | Failed | Cancelled

  /** User.paymentStatus: 'pending' | 'completed' | 'failed'. */
  datatype UserStatus = Pending | Completed | Failed

  /** The sanitised sign-up form that reaches the order-creation controller. */
  datatype UserForm = UserForm(name: string, mobile: string, email: string, city: string, experience: string)

  datatype User = User(
    id: string,
    name: string,
    mobile: string,
    email: string,
    city: string,
    experience: string,
    paymentStatus: UserStatus,
    paymentId: Option<string>)

  datatype Payment = Payment(
    id: string,
    userId: string,
    razorpayOrderId: string,
    amount: int,
    receipt: string,
    status: PaymentStatus,
    razorpayPaymentId: Option<string>,
    razorpaySignature: Option<string>)

  /** The Payment collection keyed by gateway order id and the User collection keyed by id. */
  datatype Stores = Stores(payments: map<string, Payment>, users: map<string, User>)

  /** Whether some payment already carries the document id `id`. */
  predicate PaymentIdTaken(payments: map<string, Payment>, id: string) {
    exists k :: k in payments && payments[k].id == id
  }

  // ---------------------------------------------------------------- invariant

  /** Every record is filed under its own key. */
  ghost predicate KeysMatch(s: Stores) {
    && (forall k :: k in s.payments ==> s.payments[k].razorpayOrderId == k)
    && (forall k :: k in s.users ==> s.users[k].id == k)
  }

  /** No two users share an email address, and no two share a mobile number. */
  ghost predicate UniqueContacts(users: map<string, User>) {
    forall a, b :: a in users && b in users && a != b ==>
      users[a].email != users[b].email && users[a].mobile != users[b].mobile
  }

  /** No two payments share a document id. */
  ghost predicate UniquePaymentIds(payments: map<string, Payment>) {
    forall a, b :: a in payments && b in payments && a != b ==> payments[a].id != payments[b].id
  }

  /** Every payment names an existing user, and that user points back at it. */
  ghost predicate Linked(s: Stores) {
    forall k :: k in s.payments ==>
      && s.payments[k].userId in s.users
      && s.users[s.payments[k].userId].paymentId == Some(s.payments[k].id)
  }

  ghost predicate Valid(s: Stores) {
    KeysMatch(s) && UniqueContacts(s.users) && UniquePaymentIds(s.payments) && Linked(s)
  }

  // ---------------------------------------------------------------- record updates

  /** The update documents the callbacks pass to `findOneAndUpdate` on a payment. */
  datatype PaymentUpdate =
    | MarkPaid(paymentId: string, signature: string)
    | SetStatus(status: PaymentStatus)

  function ApplyPaymentUpdate(p: Payment, u: PaymentUpdate): Payment {
    match u
    case MarkPaid(pid, sig) =>
      p.(razorpayPaymentId := Some(pid), razorpaySignature := Some(sig), status := Paid)
    case SetStatus(st) => p.(status := st)
  }

  /**
   * `Payment.findOneAndUpdate({razorpayOrderId}, update)`: overwrites the
   * listed fields of the payment filed under that order id, whatever its
   * current status, and is a no-op when there is none.
   */
  function UpdatePaymentByOrder(payments: map<string, Payment>, orderId: string, u: PaymentUpdate)
    : (r: map<string, Payment>)
    ensures r.Keys == payments.Keys
    ensures forall k :: k in payments && k != orderId ==> r[k] == payments[k]
    ensures orderId in r ==> r[orderId] == ApplyPaymentUpdate(payments[orderId], u)
  {
    if orderId in payments then payments[orderId := ApplyPaymentUpdate(payments[orderId], u)] else payments
  }

  /**
   * `User.findByIdAndUpdate(id, {paymentStatus})`: overwrites the status of
   * the user with that id and is a no-op when there is none.
   */
  function SetUserStatus(users: map<string, User>, id: string, st: UserStatus): (r: map<string, User>)
    ensures r.Keys == users.Keys
    ensures forall k :: k in users && k != id ==> r[k] == users[k]
    ensures id in r ==> r[id] == users[id].(paymentStatus := st)
  {
    if id in users then users[id := users[id].(paymentStatus := st)] else users
  }

  // ---------------------------------------------------------------- configuration

  /** The environment variables the core reads (`undefined` is `None`). */
  datatype Config = Config(
    frontendCancelUrl: Option<string>,
    frontendSuccessUrl: Option<string>,
    backendUrl: Option<string>,
    razorpayKeyId: Option<string>,
    razorpayKeySecret: string,
    paymentAmount: Option<string>)

  /** `value || fallback` on a string that may be undefined: the empty string falls back too. */
  function OrDefault(value: Option<string>, fallback: string): (r: string)
    ensures value.Some? && value.value != "" ==> r == value.value
    ensures value.None? || value.value == "" ==> r == fallback
  {
    if value.Some? && value.value != "" then value.value else fallback
  }

  /** A possibly undefined value interpolated into a template literal. */
  function Interpolated(value: Option<string>): (r: string)
    ensures value.Some? ==> r == value.value
    ensures value.None? ==> r == "undefined"
  {
    if value.Some? then value.value else "undefined"
  }

  function CancelBase(cfg: Config): string {
    OrDefault(cfg.frontendCancelUrl, "http://localhost:5173")
  }

  function SuccessBase(cfg: Config): string {
    OrDefault(cfg.frontendSuccessUrl, "http://localhost:5173/success")
  }

  // ---------------------------------------------------------------- redirects

  /** The marker a callback appends to the frontend cancel destination. */
  datatype Marker =
    | MissingParams
    | InvalidOrder
    | SignatureFailed
    | ServerError
    | MissingOrderId
    | UserCancelled

  /** Where a payment callback sends the browser. */
  datatype Redirect = ToSuccess(paymentId: string) | ToCancel(marker: Marker)

  function MarkerQuery(m: Marker): string {
    match m
    case MissingParams => "error=missing_params"
    case InvalidOrder => "error=invalid_order"
    case SignatureFailed => "error=signature_failed"
    case ServerError => "error=server_error"
    case MissingOrderId => "error=missing_order_id"
    case UserCancelled => "reason=user_cancelled"
  }

  /** The URL passed to `res.redirect`. */
  function RedirectUrl(cfg: Config, r: Redirect): (url: string)
    // The configured frontend page, whose query gives back the payment id or the marker.
    ensures r.ToSuccess? ==> var b := SuccessBase(cfg) + "?payment_id=";
      |b| <= |url| && url[..|b|] == b && url[|b|..] == r.paymentId
    ensures r.ToCancel? ==> var b := CancelBase(cfg) + "?";
      |b| <= |url| && url[..|b|] == b && url[|b|..] == MarkerQuery(r.marker)
  {
    match r
    case ToSuccess(pid) => SuccessBase(cfg) + "?payment_id=" + pid
    case ToCancel(m) => CancelBase(cfg) + "?" + MarkerQuery(m)
  }

  /** Distinct cancel markers give distinct URLs, so the frontend can tell every outcome apart. */
  lemma CancelUrlsDistinct(cfg: Config, m1: Marker, m2: Marker)
    requires m1 != m2
    ensures RedirectUrl(cfg, ToCancel(m1)) != RedirectUrl(cfg, ToCancel(m2))
  {
    var b := CancelBase(cfg) + "?";
    var q1, q2 := MarkerQuery(m1), MarkerQuery(m2);
    assert RedirectUrl(cfg, ToCancel(m1)) == b + q1 && RedirectUrl(cfg, ToCancel(m2)) == b + q2;
    assert q1 != q2;
    assert (b + q1)[|b|..] == q1 && (b + q2)[|b|..] == q2;
  }
}
