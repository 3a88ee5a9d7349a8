/**
 * The database as the controllers see it: the Payment and User collections
 * plus one client session whose transaction either keeps every write made
 * since it started (commit) or puts the collections back as they were
 * (abort). Each write takes a flag saying whether the driver throws at
 * that call; a write that throws changes nothing.
 */
module Store {
  import opened Wrappers
  import opened Records

  /** The database calls a controller makes, in the order it makes them. */
  datatype DbStep =
    | FindDuplicate
    | InsertUser
    | InsertPayment
    | LinkUser
    | UpdatePayment
    | UpdateUser
    | Commit

  /** Whether the driver throws when the controller reaches `step`. */
  predicate Throws(fault: Option<DbStep>, step: DbStep) {
    fault == Some(step)
  }

  class Db {
    var payments: map<string, Payment>
    var users: map<string, User>
    /** The collections as they were when the open transaction started; `None` when none is open. */
    var snapshot: Option<Stores>

    function State(): Stores
      reads this
    {
      Stores(payments, users)
    }

    constructor (initial: Stores)
      ensures State() == initial && snapshot == None
    {
      payments := initial.payments;
      users := initial.users;
      snapshot := None;
    }

    /** `mongoose.startSession()` followed by `session.startTransaction()`. */
    method StartTransaction()
      requires snapshot == None
      modifies this`snapshot
      ensures snapshot == Some(State())
    {
      snapshot := Some(State());
    }

    /** `session.commitTransaction()`: keeps every write; on a throw the transaction stays open. */
    method CommitTransaction(throws: bool) returns (threw: bool)
      requires snapshot.Some?
      modifies this`snapshot
      ensures threw == throws
      ensures snapshot == if throws then old(snapshot) else None
    {
      threw := throws;
      if !throws {
        snapshot := None;
      }
    }

    /** `session.abortTransaction()`: every write since the start is undone. */
    method AbortTransaction()
      requires snapshot.Some?
      modifies this
      ensures State() == old(snapshot.value) && snapshot == None
    {
      payments := snapshot.value.payments;
      users := snapshot.value.users;
      snapshot := None;
    }

    /** `session.endSession()`: a transaction still open is aborted. */
    method EndSession()
      modifies this
      ensures snapshot == None
      ensures State() == if old(snapshot).Some? then old(snapshot).value else old(State())
    {
      if snapshot.Some? {
        AbortTransaction();
      }
    }

    /** `Payment.findOneAndUpdate({razorpayOrderId: orderId}, update, {session})`. */
    method FindOneAndUpdatePayment(orderId: string, update: PaymentUpdate, throws: bool) returns (threw: bool)
      modifies this`payments
      ensures snapshot == old(snapshot) && users == old(users)
      ensures threw == throws
      ensures payments == if throws then old(payments) else UpdatePaymentByOrder(old(payments), orderId, update)
    {
      threw := throws;
      if !throws {
        payments := UpdatePaymentByOrder(payments, orderId, update);
      }
    }

    /** `User.findByIdAndUpdate(id, {paymentStatus: status}, {session})`. */
    method FindByIdAndUpdateUser(id: string, status: UserStatus, throws: bool) returns (threw: bool)
      modifies this`users
      ensures snapshot == old(snapshot) && payments == old(payments)
      ensures threw == throws
      ensures users == if throws then old(users) else SetUserStatus(old(users), id, status)
    {
      threw := throws;
      if !throws {
        users := SetUserStatus(users, id, status);
      }
    }

    /** `new User(...).save({session})`: an insert, refused as a duplicate key when the id is taken. */
    method InsertUser(u: User, throws: bool) returns (threw: bool)
      modifies this`users
      ensures snapshot == old(snapshot) && payments == old(payments)
      ensures threw == (throws || u.id in old(users))
      ensures users == if threw then old(users) else old(users)[u.id := u]
    {
      threw := throws || u.id in users;
      if !threw {
        users := users[u.id := u];
      }
    }

    /**
     * `new Payment(...).save({session})`: an insert, refused as a duplicate
     * key when the document id or the order id is taken.
     */
    method InsertPayment(p: Payment, throws: bool) returns (threw: bool)
      modifies this`payments
      ensures snapshot == old(snapshot) && users == old(users)
      ensures threw == (throws || p.razorpayOrderId in old(payments) || PaymentIdTaken(old(payments), p.id))
      ensures payments == if threw then old(payments) else old(payments)[p.razorpayOrderId := p]
    {
      threw := throws || p.razorpayOrderId in payments || PaymentIdTaken(payments, p.id);
      if !threw {
        payments := payments[p.razorpayOrderId := p];
      }
    }

    /**
     * `savedUser.paymentId = savedPayment._id; savedUser.save({session})`:
     * an update of a saved document, which throws when it is gone.
     */
    method SetUserPaymentId(userId: string, paymentId: string, throws: bool) returns (threw: bool)
      modifies this`users
      ensures snapshot == old(snapshot) && payments == old(payments)
      ensures threw == (throws || userId !in old(users))
      ensures users == if threw then old(users)
                       else old(users)[userId := old(users)[userId].(paymentId := Some(paymentId))]
    {
      threw := throws || userId !in users;
      if !threw {
        users := users[userId := users[userId].(paymentId := Some(paymentId))];
      }
    }
  }
}
