/** The SQLite database as three abstract tables, the configuration read from
    the process environment, and the session user held by the session layer.
    Timestamps are integer milliseconds; money is in integer minor units. */
module Store {
  import opened Wrappers

  /** A row of `users`. */
  datatype User = User(
    id: string,
    email: string,
    name: string,
    passwordHash: string,
    createdAt: int,
    phone: string,
    address: string,
    isAdmin: bool,
    emailVerified: bool,
    phoneVerified: bool)

  /** A row of `otp_logins`; `consumedAt` is NULL until the code is used. */
  datatype OtpChallenge = OtpChallenge(
    id: string,
    userId: string,
    email: string,
    otpHash: string,
    attempts: nat,
    createdAt: int,
    expiresAt: int,
    consumedAt: Option<int>)

  /** An entry of an order's `files` list. */
  datatype FileInfo = FileInfo(
    filename: string,
    path: string,
    originalName: string,
    mimeType: string,
    size: nat)

  /** The payment columns of an order; `None` is SQL NULL. */
  datatype Payment = Payment(
    status: Option<string>,
    provider: Option<string>,
    orderId: Option<string>,
    paymentId: Option<string>,
    signature: Option<string>,
    paidAt: Option<int>)

  /** A row of `orders`. */
  datatype Order = Order(
    id: string,
    userId: string,
    serviceType: string,
    size: string,
    customW: int,
    customH: int,
    finish: string,
    quantity: int,
    delivery: string,
    instructions: string,
    price: int,
    deliveryFee: int,
    total: int,
    files: seq<FileInfo>,
    status: string,
    payment: Payment,
    createdAt: int)

  /** The whole database: users keyed by their (normalised) email, OTP
      challenges in insertion order, orders in insertion (rowid) order. */
  datatype Tables = Tables(users: map<string, User>, otps: seq<OtpChallenge>, orders: seq<Order>)

  /** What `req.session.user` holds after a login. */
  datatype SessionUser = SessionUser(
    id: string,
    email: string,
    name: string,
    phone: string,
    address: string,
    isAdmin: bool,
    emailVerified: bool,
    phoneVerified: bool)

  /** The environment variables the handlers read; an unset variable is "". */
  datatype Config = Config(
    adminEmail: string,
    razorpayKeyId: string,
    razorpayKeySecret: string,
    production: bool,
    smsCountryCode: string)

  /** A handler's reply together with the database it leaves behind. */
  datatype Outcome<+T> = Outcome(reply: Reply<T>, tables: Tables)

  // ---------------------------------------------------------------------------
  // Integrity constraints of the schema (PRIMARY KEY and UNIQUE columns)

  predicate UsersKeyedByEmail(users: map<string, User>) {
    forall e :: e in users ==> users[e].email == e
  }

  predicate UniqueUserIds(users: map<string, User>) {
    forall e1, e2 :: e1 in users && e2 in users && users[e1].id == users[e2].id ==> e1 == e2
  }

  predicate UserIdTaken(users: map<string, User>, id: string) {
    exists e :: e in users && users[e].id == id
  }

  predicate UniqueOtpIds(otps: seq<OtpChallenge>) {
    forall i, j :: 0 <= i < |otps| && 0 <= j < |otps| && otps[i].id == otps[j].id ==> i == j
  }

  predicate OtpIdTaken(otps: seq<OtpChallenge>, id: string) {
    exists i :: 0 <= i < |otps| && otps[i].id == id
  }

  predicate UniqueOrderIds(orders: seq<Order>) {
    forall i, j :: 0 <= i < |orders| && 0 <= j < |orders| && orders[i].id == orders[j].id ==> i == j
  }

  predicate OrderIdTaken(orders: seq<Order>, id: string) {
    exists i :: 0 <= i < |orders| && orders[i].id == id
  }

  predicate TablesValid(t: Tables) {
    UsersKeyedByEmail(t.users) && UniqueUserIds(t.users)
    && UniqueOtpIds(t.otps) && UniqueOrderIds(t.orders)
  }

  // ---------------------------------------------------------------------------
  // Statements that keep the constraints

  /** An UPDATE that leaves every row's key columns (email and id) alone. */
  predicate SameUserKeys(a: map<string, User>, b: map<string, User>) {
    a.Keys == b.Keys && forall e :: e in a ==> b[e].id == a[e].id && b[e].email == a[e].email
  }

  lemma SameUserKeysKeepValid(a: map<string, User>, b: map<string, User>)
    requires SameUserKeys(a, b)
    ensures UsersKeyedByEmail(a) && UniqueUserIds(a) ==> UsersKeyedByEmail(b) && UniqueUserIds(b)
  {
  }

  /** An INSERT INTO users that violates neither the UNIQUE email nor the id key. */
  lemma InsertUserKeepsValid(users: map<string, User>, u: User)
    requires u.email !in users && !UserIdTaken(users, u.id)
    ensures UsersKeyedByEmail(users) && UniqueUserIds(users) ==>
              UsersKeyedByEmail(users[u.email := u]) && UniqueUserIds(users[u.email := u])
  {
  }

  predicate SameOtpIds(a: seq<OtpChallenge>, b: seq<OtpChallenge>) {
    |a| == |b| && forall i :: 0 <= i < |a| ==> b[i].id == a[i].id
  }

  lemma SameOtpIdsKeepValid(a: seq<OtpChallenge>, b: seq<OtpChallenge>)
    requires SameOtpIds(a, b)
    ensures UniqueOtpIds(a) ==> UniqueOtpIds(b)
  {
  }

  lemma AppendOtpKeepsValid(otps: seq<OtpChallenge>, c: OtpChallenge)
    requires !OtpIdTaken(otps, c.id)
    ensures UniqueOtpIds(otps) ==> UniqueOtpIds(otps + [c])
  {
  }

  predicate SameOrderIds(a: seq<Order>, b: seq<Order>) {
    |a| == |b| && forall i :: 0 <= i < |a| ==> b[i].id == a[i].id
  }

  lemma SameOrderIdsKeepValid(a: seq<Order>, b: seq<Order>)
    requires SameOrderIds(a, b)
    ensures UniqueOrderIds(a) ==> UniqueOrderIds(b)
  {
  }

  lemma AppendOrderKeepsValid(orders: seq<Order>, o: Order)
    requires !OrderIdTaken(orders, o.id)
    ensures UniqueOrderIds(orders) ==> UniqueOrderIds(orders + [o])
  {
  }

  /** The SQLite database file, whose tables the handlers update row by row. */
  class Db {
    var users: map<string, User>
    var otps: seq<OtpChallenge>
    var orders: seq<Order>

    function Contents(): Tables
      reads this
    {
      Tables(users, otps, orders)
    }

    ghost predicate Valid()
      reads this
    {
      TablesValid(Contents())
    }

    /** A fresh database after schema creation. */
    constructor ()
      ensures Valid()
      ensures users == map[] && otps == [] && orders == []
    {
      users, otps, orders := map[], [], [];
    }
  }
}
