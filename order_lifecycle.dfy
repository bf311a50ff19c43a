/** How the handlers of different routers meet on one order row: an order a
    customer places can be charged, and the admin's offline payment override
    decides what the next card payment attempt does. */
module Lifecycle {
  import opened Wrappers
  import opened Text
  import opened Store
  import Orders
  import Admin
  import opened Payments

  /** A freshly placed order with a positive total, charged by its owner,
      leads to exactly one provider order request for its total. */
  lemma PlacedOrderIsChargeable(t: Tables, cfg: Config, user: SessionUser, form: Orders.OrderForm,
                                files: seq<Orders.UploadedFile>, id: string, now: int, provider: Provider)
    requires UniqueOrderIds(t.orders) && IsConfigured(cfg)
    requires id != "" && IsTrimmed(id)
    requires Orders.PlaceOrderStep(t, Some(user), form, Orders.Accepted(files), id, now).reply.Ok?
    requires form.total.Some? && form.total.value > 0
    ensures var placed := Orders.PlaceOrderStep(t, Some(user), form, Orders.Accepted(files), id, now).tables;
            CreateIntentStep(placed, cfg, Some(user), id, provider).calls
              == [ProviderRequest(form.total.value, Currency, "order_" + id)]
  {
    var placed := Orders.PlaceOrderStep(t, Some(user), form, Orders.Accepted(files), id, now).tables;
    var i := |t.orders|;
    var row := placed.orders[i];
    AppendOrderKeepsValid(t.orders, row);
    FindOwnedOrderAt(placed.orders, i, user.id);
    TrimOfTrimmed(id);
    assert !IsPaid(row.payment) by {
      assert |Lower("unpaid")| == 6;
    }
    CreateIntentCreates(placed, cfg, Some(user), id, provider, i);
  }

  /** Marking an order paid offline makes the card payment route refuse it. */
  lemma OfflinePaidBlocksCharge(t: Tables, cfg: Config, admin: Option<SessionUser>, user: SessionUser, i: nat,
                                now: int, provider: Provider)
    requires TablesValid(t) && i < |t.orders| && t.orders[i].userId == user.id && t.orders[i].total > 0
    requires IsConfigured(cfg) && t.orders[i].id != "" && IsTrimmed(t.orders[i].id)
    requires Admin.UpdatePaymentStep(t, cfg, admin, t.orders[i].id, "paid", now).reply.Ok?
    ensures var marked := Admin.UpdatePaymentStep(t, cfg, admin, t.orders[i].id, "paid", now).tables;
            CreateIntentStep(marked, cfg, Some(user), t.orders[i].id, provider)
              == Charge(Outcome(Error(400, AlreadyPaid), marked), [])
  {
    var id := t.orders[i].id;
    var marked := Admin.UpdatePaymentStep(t, cfg, admin, id, "paid", now).tables;
    assert Lower("paid") == "paid";
    Admin.MarkPaidRows(t, cfg, admin, id, "paid", now);
    Admin.UpdatePaymentKeepsValid(t, cfg, admin, id, "paid", now);
    LowerOfLowercase("paid");
    FindOwnedOrderAt(marked.orders, i, user.id);
    TrimOfTrimmed(id);
    CreateIntentRefuses(marked, cfg, Some(user), id, provider, i);
  }

  /** Marking an order unpaid offline forgets the provider order, so the next
      card payment attempt asks the provider for a new one. */
  lemma OfflineUnpaidStartsOver(t: Tables, cfg: Config, admin: Option<SessionUser>, user: SessionUser, i: nat,
                                now: int, provider: Provider)
    requires TablesValid(t) && i < |t.orders| && t.orders[i].userId == user.id && t.orders[i].total > 0
    requires IsConfigured(cfg) && t.orders[i].id != "" && IsTrimmed(t.orders[i].id)
    requires Admin.UpdatePaymentStep(t, cfg, admin, t.orders[i].id, "unpaid", now).reply.Ok?
    ensures var cleared := Admin.UpdatePaymentStep(t, cfg, admin, t.orders[i].id, "unpaid", now).tables;
            CreateIntentStep(cleared, cfg, Some(user), t.orders[i].id, provider).calls
              == [ProviderRequest(t.orders[i].total, Currency, "order_" + t.orders[i].id)]
  {
    var id := t.orders[i].id;
    var cleared := Admin.UpdatePaymentStep(t, cfg, admin, id, "unpaid", now).tables;
    assert Lower("unpaid") == "unpaid";
    Admin.MarkUnpaidRows(t, cfg, admin, id, "unpaid", now, now);
    Admin.UpdatePaymentKeepsValid(t, cfg, admin, id, "unpaid", now);
    FindOwnedOrderAt(cleared.orders, i, user.id);
    TrimOfTrimmed(id);
    assert !IsPaid(cleared.orders[i].payment) by {
      assert |Lower("unpaid")| == 6;
    }
    CreateIntentCreates(cleared, cfg, Some(user), id, provider, i);
  }
}
