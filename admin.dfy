/** The admin back office: the admin guard, the filtered and sorted order
    list, and the two row updates (fulfilment status and offline payment). */
module Admin {
  import opened Wrappers
  import opened Text
  import opened Store
  import opened Listing
  import opened Identity

  const AdminOnly := "Admin only"
  const InvalidStatus := "Invalid status"
  const InvalidPaymentStatus := "Invalid payment status"

  // ---------------------------------------------------------------------------
  // requireAdmin

  /** A session user flagged admin whose lower-cased email is the lower-cased ADMIN_EMAIL. */
  predicate IsAdminSession(cfg: Config, session: Option<SessionUser>)
    ensures IsAdminSession(cfg, session) ==>
              session.Some? && session.value.isAdmin && |session.value.email| == |cfg.adminEmail|
    ensures session.Some? && session.value.isAdmin && session.value.email == AdminEmailLower(cfg) ==>
              IsAdminSession(cfg, session)
  {
    LowerOfLowercase(AdminEmailLower(cfg));
    session.Some? && session.value.isAdmin && Lower(session.value.email) == AdminEmailLower(cfg)
  }

  /** For the session of a user whose email is normalised and whose flag was
      synchronised at login, the guard passes exactly when the email is the
      admin email: a flag alone never opens the back office. */
  lemma AdminGuardMatchesFlag(cfg: Config, u: User)
    requires NormalizeEmail(u.email) == u.email
    requires u.isAdmin == ShouldBeAdmin(cfg, u.email)
    ensures IsAdminSession(cfg, Some(SessionOf(u))) <==> ShouldBeAdmin(cfg, u.email)
  {
    LowerOfLowercase(u.email);
  }

  // ---------------------------------------------------------------------------
  // GET /orders

  /** A row of the join of `orders` with the `users` row of its owner. */
  datatype AdminRow = AdminRow(order: Order, userEmail: string, userName: string, userPhone: string)

  function RowOrder(row: AdminRow): Order { row.order }

  /** The query string's `status`, `q` and `sort`; "" when absent. */
  datatype ListQuery = ListQuery(status: string, q: string, sort: string)

  const StatusClause := "o.status = ?"
  const SearchClause := "(u.email LIKE ? OR u.name LIKE ? OR o.id LIKE ?)"

  /** The ORDER BY the `sort` parameter selects. */
  function SortKeyOf(sort: string): (k: SortKey)
    ensures k == CreatedDesc <==> sort !in {"total_asc", "total_desc", "status"}
  {
    if sort == "total_asc" then TotalAsc
    else if sort == "total_desc" then TotalDesc
    else if sort == "status" then StatusAsc
    else CreatedDesc
  }

  /** `%q%`: the LIKE pattern for "contains q". */
  function Contains(q: string): string {
    "%" + q + "%"
  }

  /** What SQLite makes of the clauses joined by AND, with their parameters
      bound left to right; only the two clause forms the handler writes are read. */
  predicate Holds(row: AdminRow, clauses: seq<string>, params: seq<string>)
    decreases |clauses|
  {
    if clauses == [] then true
    else if clauses[0] == StatusClause && |params| >= 1 then
      row.order.status == params[0] && Holds(row, clauses[1..], params[1..])
    else if clauses[0] == SearchClause && |params| >= 3 then
      (Like(row.userEmail, params[0]) || Like(row.userName, params[1]) || Like(row.order.id, params[2]))
      && Holds(row, clauses[1..], params[3..])
    else false
  }

  /** The filter the request asks for: the status if given, and `q` somewhere
      in the customer's email or name or the order id if given. */
  predicate Wanted(query: ListQuery, row: AdminRow) {
    (query.status == "" || row.order.status == query.status)
    && (query.q == "" || Like(row.userEmail, Contains(query.q)) || Like(row.userName, Contains(query.q))
        || Like(row.order.id, Contains(query.q)))
  }

  /** Builds the WHERE clauses and their parameters by pushing, as the handler does. */
  method BuildFilter(query: ListQuery) returns (clauses: seq<string>, params: seq<string>)
    ensures forall row :: Holds(row, clauses, params) <==> Wanted(query, row)
    ensures |clauses| <= 2
  {
    clauses, params := [], [];
    if query.status != "" {
      clauses := clauses + [StatusClause];
      params := params + [query.status];
    }
    if query.q != "" {
      clauses := clauses + [SearchClause];
      params := params + [Contains(query.q), Contains(query.q), Contains(query.q)];
    }
    var c := Contains(query.q);
    forall row
      ensures Holds(row, clauses, params) <==> Wanted(query, row)
    {
      assert |StatusClause| != |SearchClause|;
      var search := Like(row.userEmail, c) || Like(row.userName, c) || Like(row.order.id, c);
      assert Holds(row, [SearchClause], [c, c, c]) == search by {
        assert [SearchClause][1..] == [] && [c, c, c][3..] == [];
      }
      if query.status != "" && query.q != "" {
        assert clauses == [StatusClause, SearchClause] && params == [query.status, c, c, c];
        assert clauses[1..] == [SearchClause] && params[1..] == [c, c, c];
      } else if query.status != "" {
        assert clauses == [StatusClause] && params == [query.status];
        assert clauses[1..] == [] && params[1..] == [];
      } else if query.q != "" {
        assert clauses == [SearchClause] && params == [c, c, c];
      }
    }
  }

  /** The owner of an order, if the `users` table has a row with that id. */
  function UserWithId(users: map<string, User>, id: string): (r: Option<User>)
    requires UniqueUserIds(users)
    ensures r.Some? <==> UserIdTaken(users, id)
    ensures r.Some? ==> r.value.id == id && r.value in users.Values
  {
    if UserIdTaken(users, id) then
      var e :| e in users && users[e].id == id;
      Some(users[e])
    else None
  }

  /** `orders o JOIN users u ON u.id = o.user_id`: an order without an owner drops out. */
  function Join(orders: seq<Order>, users: map<string, User>): (r: seq<AdminRow>)
    requires UniqueUserIds(users)
    ensures |r| <= |orders|
  {
    if orders == [] then []
    else
      var owner := UserWithId(users, orders[0].userId);
      var rest := Join(orders[1..], users);
      if owner.Some? then [RowOf(orders[0], owner.value)] + rest
      else rest
  }

  /** The row `u.email, u.name, u.phone, o.*` for order `o` and owner `u`. */
  function RowOf(o: Order, u: User): AdminRow {
    AdminRow(o, u.email, u.name, u.phone)
  }

  /** The join pairs each order with its owner's email, name and phone: every
      row is an order with an owner, and each order with an owner yields its
      row as many times as the order occurs, so only ownerless orders drop out. */
  lemma {:induction false} JoinRows(orders: seq<Order>, users: map<string, User>)
    requires UniqueUserIds(users)
    ensures forall row :: row in Join(orders, users) ==>
              row.order in orders && UserWithId(users, row.order.userId).Some?
              && row == RowOf(row.order, UserWithId(users, row.order.userId).value)
    ensures forall o: Order :: UserWithId(users, o.userId).Some? ==>
              multiset(Join(orders, users))[RowOf(o, UserWithId(users, o.userId).value)] == multiset(orders)[o]
    decreases |orders|
  {
    if orders != [] {
      JoinRows(orders[1..], users);
      assert orders == [orders[0]] + orders[1..];
      forall o: Order | UserWithId(users, o.userId).Some?
        ensures multiset(Join(orders, users))[RowOf(o, UserWithId(users, o.userId).value)] == multiset(orders)[o]
      {
        var row := RowOf(o, UserWithId(users, o.userId).value);
        assert multiset(orders)[o] == multiset([orders[0]])[o] + multiset(orders[1..])[o];
        if UserWithId(users, orders[0].userId).Some? {
          var head := RowOf(orders[0], UserWithId(users, orders[0].userId).value);
          assert multiset(Join(orders, users))[row] == multiset([head])[row] + multiset(Join(orders[1..], users))[row];
          assert head == row <==> orders[0] == o;
        }
      }
    }
  }

  /** The rows the list query returns. */
  function ListedRows(t: Tables, query: ListQuery): (r: seq<AdminRow>)
    requires UniqueUserIds(t.users)
    ensures |r| <= |t.orders|
    ensures forall row :: row in r ==> row.order in t.orders && Wanted(query, row)
  {
    ListedRowsFromOrders(t, query);
    SortBy(SortKeyOf(query.sort), Select(Join(t.orders, t.users), (row: AdminRow) => Wanted(query, row)), RowOrder)
  }

  /** The list holds exactly the joined rows the filter wants, each once per
      row, in the order the `sort` parameter selects. */
  lemma ListedRowsAreWanted(t: Tables, query: ListQuery)
    requires UniqueUserIds(t.users)
    ensures var r := ListedRows(t, query);
            && (forall row :: row in r ==> Wanted(query, row))
            && (forall row :: Wanted(query, row) ==> multiset(r)[row] == multiset(Join(t.orders, t.users))[row])
            && Sorted(SortKeyOf(query.sort), r, RowOrder)
  {
    var wanted := (row: AdminRow) => Wanted(query, row);
    var selected := Select(Join(t.orders, t.users), wanted);
    SelectKeepsMatches(Join(t.orders, t.users), wanted);
    SortBySorted(SortKeyOf(query.sort), selected, RowOrder);
    forall row | row in ListedRows(t, query)
      ensures Wanted(query, row)
    {
      assert row in multiset(selected);
    }
  }

  /** Every listed row is a wanted row of one of the stored orders. */
  lemma ListedRowsFromOrders(t: Tables, query: ListQuery)
    requires UniqueUserIds(t.users)
    ensures var rows := SortBy(SortKeyOf(query.sort), Select(Join(t.orders, t.users), (row: AdminRow) => Wanted(query, row)), RowOrder);
            |rows| <= |t.orders| && forall row :: row in rows ==> row.order in t.orders && Wanted(query, row)
  {
    var wanted := (row: AdminRow) => Wanted(query, row);
    var joined := Join(t.orders, t.users);
    var selected := Select(joined, wanted);
    var rows := SortBy(SortKeyOf(query.sort), selected, RowOrder);
    JoinRows(t.orders, t.users);
    SelectKeepsMatches(joined, wanted);
    assert |rows| == |multiset(rows)| == |selected|;
    forall row | row in rows
      ensures row.order in t.orders && Wanted(query, row)
    {
      assert row in multiset(selected);
      assert multiset(joined)[row] > 0;
    }
  }

  /** Searching for text without wildcards finds the orders whose customer's
      email or name, or whose id, contains it in any ASCII letter case. */
  lemma SearchIsSubstring(query: ListQuery, row: AdminRow)
    requires query.q != "" && HasNoWildcard(query.q)
    ensures Wanted(query, row) <==>
              (query.status == "" || row.order.status == query.status)
              && (ContainsIgnoringCase(row.userEmail, query.q) || ContainsIgnoringCase(row.userName, query.q)
                  || ContainsIgnoringCase(row.order.id, query.q))
  {
    LikeContains(row.userEmail, query.q);
    LikeContains(row.userName, query.q);
    LikeContains(row.order.id, query.q);
  }

  method ListOrders(db: Db, cfg: Config, session: Option<SessionUser>, query: ListQuery)
    returns (r: Reply<seq<AdminRow>>)
    requires db.Valid()
    ensures r.Error? <==> !IsAdminSession(cfg, session)
    ensures r.Error? ==> r == Error(403, AdminOnly)
    ensures r.Ok? ==> r.value == ListedRows(db.Contents(), query)
  {
    if !IsAdminSession(cfg, session) { return Error(403, AdminOnly); }
    var clauses, params := BuildFilter(query);
    var matching := (row: AdminRow) => Holds(row, clauses, params);
    var joined := Join(db.orders, db.users);
    SelectAgrees(joined, matching, (row: AdminRow) => Wanted(query, row));
    r := Ok(SortBy(SortKeyOf(query.sort), Select(joined, matching), RowOrder));
  }

  /** Two filters that agree on every row select the same rows. */
  lemma {:induction false} SelectAgrees(rows: seq<AdminRow>, p: AdminRow -> bool, q: AdminRow -> bool)
    requires forall row :: p(row) == q(row)
    ensures Select(rows, p) == Select(rows, q)
    decreases |rows|
  {
    if rows != [] {
      SelectAgrees(rows[1..], p, q);
    }
  }

  // ---------------------------------------------------------------------------
  // POST /orders/:id/status

  const AllowedStatuses := ["pending", "confirmed", "designing", "printing", "completed", "cancelled"]

  /** `UPDATE orders SET status = ? WHERE id = ?`. */
  function SetStatus(orders: seq<Order>, id: string, status: string): (r: seq<Order>)
    ensures SameOrderIds(orders, r)
  {
    seq(|orders|, i requires 0 <= i < |orders| => if orders[i].id == id then orders[i].(status := status) else orders[i])
  }

  function UpdateStatusStep(t: Tables, cfg: Config, session: Option<SessionUser>, id: string, status: string)
    : (o: Outcome<()>)
    ensures !IsAdminSession(cfg, session) ==> o == Outcome(Error(403, AdminOnly), t)
    ensures IsAdminSession(cfg, session) && status !in AllowedStatuses ==> o == Outcome(Error(400, InvalidStatus), t)
    ensures o.reply.Ok? <==> IsAdminSession(cfg, session) && status in AllowedStatuses
    ensures o.tables.users == t.users && o.tables.otps == t.otps && SameOrderIds(t.orders, o.tables.orders)
  {
    if !IsAdminSession(cfg, session) then Outcome(Error(403, AdminOnly), t)
    else if status !in AllowedStatuses then Outcome(Error(400, InvalidStatus), t)
    else Outcome(Ok(()), t.(orders := SetStatus(t.orders, id, status)))
  }

  /** An accepted update gives every row with that id the new status, whatever
      its old one, and changes nothing else; an unknown id is not an error. */
  lemma UpdateStatusRows(t: Tables, cfg: Config, session: Option<SessionUser>, id: string, status: string)
    requires UpdateStatusStep(t, cfg, session, id, status).reply.Ok?
    ensures var after := UpdateStatusStep(t, cfg, session, id, status).tables.orders;
            forall i :: 0 <= i < |t.orders| ==>
              after[i] == if t.orders[i].id == id then t.orders[i].(status := status) else t.orders[i]
    ensures !OrderIdTaken(t.orders, id) ==> UpdateStatusStep(t, cfg, session, id, status).tables == t
  {
    var o := UpdateStatusStep(t, cfg, session, id, status);
    if !OrderIdTaken(t.orders, id) {
      assert o.tables.orders == t.orders;
    }
  }

  lemma UpdateStatusKeepsValid(t: Tables, cfg: Config, session: Option<SessionUser>, id: string, status: string)
    requires TablesValid(t)
    ensures TablesValid(UpdateStatusStep(t, cfg, session, id, status).tables)
  {
    SameOrderIdsKeepValid(t.orders, UpdateStatusStep(t, cfg, session, id, status).tables.orders);
  }

  method UpdateStatus(db: Db, cfg: Config, session: Option<SessionUser>, id: string, status: string)
    returns (r: Reply<()>)
    requires db.Valid()
    modifies db
    ensures Outcome(r, db.Contents()) == UpdateStatusStep(old(db.Contents()), cfg, session, id, status)
    ensures db.Valid()
  {
    if !IsAdminSession(cfg, session) { return Error(403, AdminOnly); }
    if status !in AllowedStatuses { return Error(400, InvalidStatus); }
    SameOrderIdsKeepValid(db.orders, SetStatus(db.orders, id, status));
    db.orders := SetStatus(db.orders, id, status);
    r := Ok(());
  }

  // ---------------------------------------------------------------------------
  // POST /orders/:id/payment-status

  /** The offline 'paid' update: status, provider and time; the provider ids stay. */
  function PaidOffline(p: Payment, now: int): (q: Payment)
    ensures q.orderId == p.orderId && q.paymentId == p.paymentId && q.signature == p.signature
  {
    p.(status := Some("paid"), provider := Some("offline"), paidAt := Some(now))
  }

  /** The 'unpaid' update: every provider column cleared together. */
  const Cleared := Payment(Some("unpaid"), None, None, None, None, None)

  /** One UPDATE of the payment columns of every row with that id: `paid` with
      `Some(now)`, `unpaid` with `None`. */
  function SetPayment(orders: seq<Order>, id: string, paidAt: Option<int>): (r: seq<Order>)
    ensures SameOrderIds(orders, r)
  {
    seq(|orders|, i requires 0 <= i < |orders| =>
      if orders[i].id != id then orders[i]
      else if paidAt.Some? then orders[i].(payment := PaidOffline(orders[i].payment, paidAt.value))
      else orders[i].(payment := Cleared))
  }

  function UpdatePaymentStep(t: Tables, cfg: Config, session: Option<SessionUser>, id: string, status: string,
                             now: int): (o: Outcome<()>)
    ensures !IsAdminSession(cfg, session) ==> o == Outcome(Error(403, AdminOnly), t)
    ensures IsAdminSession(cfg, session) && Lower(status) != "paid" && Lower(status) != "unpaid" ==>
              o == Outcome(Error(400, InvalidPaymentStatus), t)
    ensures o.reply.Ok? <==> IsAdminSession(cfg, session) && (Lower(status) == "paid" || Lower(status) == "unpaid")
    ensures o.tables.users == t.users && o.tables.otps == t.otps && SameOrderIds(t.orders, o.tables.orders)
  {
    var s := Lower(status);
    if !IsAdminSession(cfg, session) then Outcome(Error(403, AdminOnly), t)
    else if s != "paid" && s != "unpaid" then Outcome(Error(400, InvalidPaymentStatus), t)
    else Outcome(Ok(()), t.(orders := SetPayment(t.orders, id, if s == "paid" then Some(now) else None)))
  }

  /** Marking an order paid offline records the provider 'offline' and the
      time, keeps the provider's ids and signature, and touches no other column or row. */
  lemma MarkPaidRows(t: Tables, cfg: Config, session: Option<SessionUser>, id: string, status: string, now: int)
    requires UpdatePaymentStep(t, cfg, session, id, status, now).reply.Ok? && Lower(status) == "paid"
    ensures var after := UpdatePaymentStep(t, cfg, session, id, status, now).tables.orders;
            forall i :: 0 <= i < |t.orders| ==>
              if t.orders[i].id != id then after[i] == t.orders[i]
              else
                && after[i] == t.orders[i].(payment := after[i].payment)
                && after[i].payment.status == Some("paid") && after[i].payment.provider == Some("offline")
                && after[i].payment.paidAt == Some(now)
                && after[i].payment.orderId == t.orders[i].payment.orderId
                && after[i].payment.paymentId == t.orders[i].payment.paymentId
                && after[i].payment.signature == t.orders[i].payment.signature
  {
  }

  /** Marking an order unpaid clears every provider column at once, and doing
      it a second time changes nothing. */
  lemma MarkUnpaidRows(t: Tables, cfg: Config, session: Option<SessionUser>, id: string, status: string, now: int,
                       later: int)
    requires UpdatePaymentStep(t, cfg, session, id, status, now).reply.Ok? && Lower(status) == "unpaid"
    ensures var once := UpdatePaymentStep(t, cfg, session, id, status, now).tables;
            && (forall i :: 0 <= i < |t.orders| ==>
                  once.orders[i] == if t.orders[i].id == id then t.orders[i].(payment := Cleared) else t.orders[i])
            && UpdatePaymentStep(once, cfg, session, id, status, later).tables == once
  {
    var once := UpdatePaymentStep(t, cfg, session, id, status, now).tables;
    var twice := UpdatePaymentStep(once, cfg, session, id, status, later).tables;
    assert twice.orders == once.orders;
  }

  lemma UpdatePaymentKeepsValid(t: Tables, cfg: Config, session: Option<SessionUser>, id: string, status: string,
                                now: int)
    requires TablesValid(t)
    ensures TablesValid(UpdatePaymentStep(t, cfg, session, id, status, now).tables)
  {
    SameOrderIdsKeepValid(t.orders, UpdatePaymentStep(t, cfg, session, id, status, now).tables.orders);
  }

  method UpdatePayment(db: Db, cfg: Config, session: Option<SessionUser>, id: string, status: string, now: int)
    returns (r: Reply<()>)
    requires db.Valid()
    modifies db
    ensures Outcome(r, db.Contents()) == UpdatePaymentStep(old(db.Contents()), cfg, session, id, status, now)
    ensures db.Valid()
  {
    if !IsAdminSession(cfg, session) { return Error(403, AdminOnly); }
    var s := Lower(status);
    if s != "paid" && s != "unpaid" { return Error(400, InvalidPaymentStatus); }
    var updated: seq<Order>;
    if s == "paid" {
      updated := SetPayment(db.orders, id, Some(now));
    } else {
      updated := SetPayment(db.orders, id, None);
    }
    SameOrderIdsKeepValid(db.orders, updated);
    db.orders := updated;
    r := Ok(());
  }
}
