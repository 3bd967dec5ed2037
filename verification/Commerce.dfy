/** The commerce service: its methods change the tables in place and are proved against `Orders`. */
module Commerce {
  import opened Errors
  import opened Orders
  import opened OrderLaws
  import Text

  class CommerceService {
    var nextId: Id
    var tenants: set<Id>
    var members: set<(Id, Id)>
    var owners: map<Id, set<Id>>
    var addresses: map<Id, Address>
    var products: map<Id, Product>
    var offerings: map<Id, Offering>
    var carts: map<Id, Cart>
    var orders: map<Id, Order>

    ghost function State(): Store
      reads this
    {
      Store(nextId, tenants, members, owners, addresses, products, offerings, carts, orders)
    }

    constructor ()
      ensures State() == START && Inv(State())
    {
      nextId := 0;
      tenants, members, owners, addresses := {}, {}, map[], map[];
      products, offerings, carts, orders := map[], map[], map[], map[];
    }

    method RequireMember(tenant: Id, user: Id) returns (out: Outcome)
      ensures out == Membership(State(), tenant, user)
    {
      if tenant !in tenants {
        return Refused(NotFound);
      }
      if (tenant, user) !in members {
        return Refused(Forbidden);
      }
      return Done;
    }

    method RequireVendorOwner(vendor: Id, user: Id) returns (out: Outcome)
      ensures out == VendorOwnership(State(), vendor, user)
    {
      if vendor !in owners {
        return Refused(NotFound);
      }
      if user !in owners[vendor] {
        return Refused(Forbidden);
      }
      return Done;
    }

    /** The tenant's open cart; the database allows at most one. */
    method FindOpenCart(tenant: Id) returns (c: Option<Id>)
      requires OneOpenCart(carts)
      ensures c == OpenCart(carts, tenant)
    {
      if exists k | k in carts :: IsOpen(carts, tenant, k) {
        var k :| k in carts && IsOpen(carts, tenant, k);
        return Some(k);
      }
      return None;
    }

    method AddLine(tenant: Id, user: Id, offering: Id, quantity: int) returns (out: Outcome)
      requires Inv(State())
      modifies this
      ensures (State(), out) == Orders.AddLine(old(State()), tenant, user, offering, quantity)
      ensures Inv(State())
    {
      hide OrdersOk, Checkouts, Below, CartsOk;
      AddLineKeepsInv(State(), tenant, user, offering, quantity);
      out := RequireMember(tenant, user);
      if out != Done {
        return;
      }
      if quantity < 1 {
        return Refused(Validation);
      }
      if offering !in offerings || !offerings[offering].published {
        return Refused(NotFound);
      }
      var product := products[offerings[offering].product];
      if !product.published {
        return Refused(NotFound);
      }
      if IsProvision(product.kind) {
        return Refused(Conflict);
      }
      var found := FindOpenCart(tenant);
      var c: Id;
      if found.None? {
        c := nextId;
        carts, nextId := carts[c := Cart(tenant, Open, [])], nextId + 1;
      } else {
        c := found.value;
        if HasOffering(carts[c].lines, offering) {
          return Refused(Conflict);
        }
      }
      carts := carts[c := carts[c].(lines := carts[c].lines + [CartLine(nextId, offering, quantity)])];
      nextId := nextId + 1;
      assert carts == old(carts)[c := carts[c]];
      assert found.None? ==> carts[c].lines == [CartLine(c + 1, offering, quantity)];
      return Done;
    }

    method FindLine(lines: seq<CartLine>, line: Id) returns (at: int)
      ensures -1 <= at < |lines|
      ensures at >= 0 ==> lines[at].id == line
      ensures at == -1 ==> !HasLine(lines, line)
    {
      for i := 0 to |lines|
        invariant forall j | 0 <= j < i :: lines[j].id != line
      {
        if lines[i].id == line {
          return i;
        }
      }
      return -1;
    }

    method UpdateLine(tenant: Id, user: Id, line: Id, quantity: int) returns (out: Outcome)
      requires Inv(State())
      modifies this`carts
      ensures (State(), out) == EditLine(old(State()), tenant, user, line, Some(quantity))
      ensures Inv(State())
    {
      hide OrdersOk, Checkouts, Below;
      EditLineKeepsInv(State(), tenant, user, line, Some(quantity));
      out := RequireMember(tenant, user);
      if out != Done {
        return;
      }
      if quantity < 1 {
        return Refused(Validation);
      }
      var found := FindOpenCart(tenant);
      if found.None? {
        return Refused(NotFound);
      }
      var cart := carts[found.value];
      var at := FindLine(cart.lines, line);
      if at < 0 {
        return Refused(NotFound);
      }
      assert CartOk(cart.lines);
      assert cart.lines[at := cart.lines[at].(quantity := quantity)] == WithQuantity(cart.lines, line, quantity);
      carts := carts[found.value := cart.(lines := cart.lines[at := cart.lines[at].(quantity := quantity)])];
      return Done;
    }

    method RemoveLine(tenant: Id, user: Id, line: Id) returns (out: Outcome)
      requires Inv(State())
      modifies this`carts
      ensures (State(), out) == EditLine(old(State()), tenant, user, line, None)
      ensures Inv(State())
    {
      hide OrdersOk, Checkouts, Below;
      EditLineKeepsInv(State(), tenant, user, line, None);
      out := RequireMember(tenant, user);
      if out != Done {
        return;
      }
      var found := FindOpenCart(tenant);
      if found.None? {
        return Refused(NotFound);
      }
      var cart := carts[found.value];
      var at := FindLine(cart.lines, line);
      if at < 0 {
        return Refused(NotFound);
      }
      assert CartOk(cart.lines);
      RemovedOneLine(cart.lines, at);
      carts := carts[found.value := cart.(lines := cart.lines[..at] + cart.lines[at + 1..])];
      return Done;
    }

    /** Copies the cart's lines at today's names and prices, and collects the vendors behind them. */
    method CopyLines(lines: seq<CartLine>) returns (copied: seq<OrderLine>, vendors: set<Id>, needsAddress: bool)
      requires Linked(State()) && LinksTo(offerings.Keys, lines)
      ensures copied == Snapshots(State(), lines)
      ensures vendors == VendorsOf(Sellers(State()), copied)
      ensures needsAddress <==> exists i | 0 <= i < |copied| :: NeedsAddress(copied[i].kind)
    {
      copied, vendors, needsAddress := [], {}, false;
      for i := 0 to |lines|
        invariant |copied| == i
        invariant forall j | 0 <= j < i :: copied[j] == Snapshot(State(), lines[j])
        invariant vendors == VendorsOf(Sellers(State()), copied)
        invariant needsAddress <==> exists j | 0 <= j < i :: NeedsAddress(copied[j].kind)
      {
        var offering := offerings[lines[i].offering];
        var product := products[offering.product];
        ghost var before := copied;
        copied := copied + [OrderLine(lines[i].offering, product.name, product.kind, lines[i].quantity,
                                      offering.price)];
        VendorsOfSnoc(Sellers(State()), before, copied[i]);
        vendors := vendors + {product.vendor};
        needsAddress := needsAddress || NeedsAddress(product.kind);
      }
    }

    /** One new slice per vendor. */
    method SliceRows(vendors: set<Id>) returns (slices: map<Id, Slice>)
      ensures slices == NewSlices(vendors)
    {
      slices := map[];
      var left := vendors;
      while left != {}
        invariant left <= vendors && slices == NewSlices(vendors - left)
        decreases left
      {
        var v :| v in left;
        slices := slices[v := Slice(Placed, "", "", NoRefund, None)];
        left := left - {v};
      }
      assert vendors - left == vendors;
    }

    method PlaceOrder(tenant: Id, permitted: bool, address: Option<Id>, payment: string) returns (out: Outcome)
      requires Inv(State())
      modifies this
      ensures (State(), out) == Orders.PlaceOrder(old(State()), tenant, permitted, address, payment)
      ensures Inv(State())
    {
      hide Inv, Text.Strip, Text.Lower, SellersOf, VendorsOf, NeedsAddress, OneOpenCart, Snapshot, NewSlices;
      PlaceOrderKeepsInv(State(), tenant, permitted, address, payment);
      InvTables(State());
      if !permitted {
        return Refused(Forbidden);
      }
      var pay := Text.Lower(Text.Strip(payment));
      if pay !in PAYMENT_METHODS {
        return Refused(Validation);
      }
      var found := FindOpenCart(tenant);
      if found.None? {
        return Refused(Conflict);
      }
      var cart := carts[found.value];
      if cart.lines == [] {
        return Refused(Conflict);
      }
      var lines, vendors, needsAddress := CopyLines(cart.lines);
      if needsAddress && address.None? {
        return Refused(Validation);
      }
      if address.Some? && !(address.value in addresses && addresses[address.value] == Address(tenant, true)) {
        return Refused(NotFound);
      }
      var slices := SliceRows(vendors);
      orders := orders[nextId := Order(tenant, found.value, address, pay, OrderPlaced, lines, slices)];
      nextId := nextId + 1;
      carts := carts[found.value := cart.(status := CheckedOut)];
      return Done;
    }

    /** The sum over the order lines whose offering is sold by the vendor. */
    method VendorLineTotal(order: Id, vendor: Id) returns (total: int)
      requires order in orders
      ensures total == VendorTotal(Sellers(State()), orders[order].lines, vendor)
    {
      var lines := orders[order].lines;
      total := 0;
      for i := 0 to |lines|
        invariant total == VendorTotal(Sellers(State()), lines[..i], vendor)
      {
        assert lines[..i + 1][..i] == lines[..i];
        var line := lines[i];
        if line.offering in offerings && offerings[line.offering].product in products
           && products[offerings[line.offering].product].vendor == vendor {
          total := total + line.unitPrice * line.quantity;
        }
      }
      assert lines[..|lines|] == lines;
    }

    /** Recomputes the order's status from its slices. */
    method RollupOrderStatus(order: Id)
      requires order in orders
      modifies this`orders
      ensures orders
              == old(orders)[order := old(orders[order]).(
                               status := Rollup(old(orders[order].slices), old(orders[order].status)))]
    {
      var o := orders[order];
      if o.slices == map[] {
        assert orders == orders[order := o];
        return;
      }
      var allCancelled := forall v | v in o.slices :: o.slices[v].status == Cancelled;
      var allDelivered := forall v | v in o.slices :: o.slices[v].status == Delivered;
      var anyCancelled := exists v | v in o.slices :: o.slices[v].status == Cancelled;
      var anyDelivered := exists v | v in o.slices :: o.slices[v].status == Delivered;
      var allPlaced := forall v | v in o.slices :: o.slices[v].status == Placed;
      var status: OrderStatus;
      if allCancelled {
        status := OrderCancelled;
      } else if allDelivered {
        status := OrderDelivered;
      } else if anyCancelled && exists v | v in o.slices :: o.slices[v].status != Cancelled {
        status := OrderPartial;
      } else if anyDelivered && exists v | v in o.slices :: o.slices[v].status != Delivered {
        status := OrderPartial;
      } else if allPlaced {
        status := OrderPlaced;
      } else {
        status := OrderProcessing;
      }
      orders := orders[order := o.(status := status)];
    }

    /** Moves one slice to a new status, with what a shipment or a cancellation adds to it. */
    method MoveSlice(vendor: Id, order: Id, current: Slice, to: SliceStatus, courier: string, tracking: string)
      requires order in orders
      modifies this`orders
      ensures var o := old(orders[order]);
        var moved := Moved(current, to, courier, tracking, VendorTotal(Sellers(old(State())), o.lines, vendor));
        orders == old(orders)[order := WithSlice(o, vendor, moved)]
    {
      hide Rollup, VendorTotal, SellersOf;
      var moved := current.(status := to);
      if to == Shipped {
        moved := moved.(courier := courier, tracking := tracking);
      }
      var total := VendorLineTotal(order, vendor);
      if to == Cancelled {
        moved := moved.(refund := RefundPending, refundAmount := Some(total));
      }
      orders := orders[order := orders[order].(slices := orders[order].slices[vendor := moved])];
      RollupOrderStatus(order);
      assert orders == old(orders)[order := orders[order]];
    }

    method AdvanceVendorOrder(vendor: Id, order: Id, user: Id, to: SliceStatus, courier: string, tracking: string)
      returns (out: Outcome)
      requires Inv(State())
      modifies this`orders
      ensures (State(), out) == Advance(old(State()), vendor, order, user, to, courier, tracking)
      ensures Inv(State())
    {
      hide Inv, Rollup, VendorTotal, VendorsOf, SellersOf, Text.Strip, Successors, Moved;
      AdvanceKeepsInv(State(), vendor, order, user, to, courier, tracking);
      out := RequireVendorOwner(vendor, user);
      if out != Done {
        return;
      }
      if order !in orders {
        return Refused(NotFound);
      }
      if vendor !in VendorsOf(SellersOf(products, offerings), orders[order].lines) {
        return Refused(NotFound);
      }
      var slices := orders[order].slices;
      var current := if vendor in slices then slices[vendor] else Slice(Placed, "", "", NoRefund, None);
      if to !in Successors(current.status) {
        return Refused(Validation);
      }
      var sentBy, sentAs := Text.Strip(courier), Text.Strip(tracking);
      if to == Shipped && (sentBy == "" || sentAs == "") {
        return Refused(Validation);
      }
      MoveSlice(vendor, order, current, to, sentBy, sentAs);
      return Done;
    }

    method IssueVendorRejectRefund(vendor: Id, order: Id, user: Id) returns (out: Outcome)
      requires Inv(State())
      modifies this`orders
      ensures (State(), out) == IssueRefund(old(State()), vendor, order, user)
      ensures Inv(State())
    {
      hide Inv;
      IssueRefundKeepsInv(State(), vendor, order, user);
      out := RequireVendorOwner(vendor, user);
      if out != Done {
        return;
      }
      if order !in orders || vendor !in orders[order].slices {
        return Refused(NotFound);
      }
      var slice := orders[order].slices[vendor];
      if slice.status != Cancelled || slice.refund != RefundPending {
        return Refused(Conflict);
      }
      orders := orders[order := orders[order].(slices := orders[order].slices[vendor := slice.(refund := Refunded)])];
      return Done;
    }

    method CancelOrder(tenant: Id, order: Id, user: Id) returns (out: Outcome)
      requires Inv(State())
      modifies this`orders
      ensures (State(), out) == Orders.CancelOrder(old(State()), tenant, order, user)
      ensures Inv(State())
    {
      hide Inv, VendorTotal, SellersOf;
      CancelOrderKeepsInv(State(), tenant, order, user);
      out := RequireMember(tenant, user);
      if out != Done {
        return;
      }
      if order !in orders || orders[order].tenant != tenant {
        return Refused(NotFound);
      }
      if exists v | v in orders[order].slices :: orders[order].slices[v].status != Placed {
        return Refused(Conflict);
      }
      ghost var o := orders[order];
      ghost var cancelled := AllCancelled(Sellers(State()), o);
      var left := orders[order].slices.Keys;
      while left != {}
        invariant left <= o.slices.Keys
        invariant order in orders && orders == old(orders)[order := o.(slices := orders[order].slices)]
        invariant orders[order].slices.Keys == o.slices.Keys
        invariant forall v | v in o.slices ::
          orders[order].slices[v] == if v in left then o.slices[v] else cancelled[v]
        decreases left
      {
        var v :| v in left;
        var total := VendorLineTotal(order, v);
        var slice := orders[order].slices[v].(status := Cancelled, refund := RefundPending,
                                              refundAmount := Some(total));
        orders := orders[order := orders[order].(slices := orders[order].slices[v := slice])];
        left := left - {v};
      }
      assert orders[order].slices == cancelled;
      orders := orders[order := orders[order].(status := OrderCancelled)];
      assert orders == old(orders)[order := o.(slices := cancelled, status := OrderCancelled)];
      return Done;
    }
  }

  // ---------- lemmas about the loops

  lemma VendorsOfSnoc(sellers: map<Id, Id>, lines: seq<OrderLine>, last: OrderLine)
    requires last.offering in sellers
    ensures VendorsOf(sellers, lines + [last]) == VendorsOf(sellers, lines) + {sellers[last.offering]}
  {
    var all := lines + [last];
    forall v | v in VendorsOf(sellers, lines) + {sellers[last.offering]} ensures v in VendorsOf(sellers, all) {
      if v in VendorsOf(sellers, lines) {
        var i :| 0 <= i < |lines| && lines[i].offering in sellers && sellers[lines[i].offering] == v;
        assert all[i] == lines[i];
      } else {
        assert all[|lines|] == last;
      }
    }
    forall v | v in VendorsOf(sellers, all) ensures v in VendorsOf(sellers, lines) + {sellers[last.offering]} {
      var i :| 0 <= i < |all| && all[i].offering in sellers && sellers[all[i].offering] == v;
      if i < |lines| {
        assert all[i] == lines[i];
      }
    }
  }

  lemma {:induction false} RemovedOneLine(lines: seq<CartLine>, at: nat)
    requires at < |lines| && (forall i | 0 <= i < |lines| && i != at :: lines[i].id != lines[at].id)
    ensures WithoutLine(lines, lines[at].id) == lines[..at] + lines[at + 1..]
    decreases |lines|
  {
    var n := |lines| - 1;
    var init := lines[..n];
    if at < n {
      RemovedOneLine(init, at);
      assert lines[..at] + lines[at + 1..] == init[..at] + init[at + 1..] + [lines[n]];
    } else {
      NothingRemoved(init, lines[n].id);
      assert lines[..at] + lines[at + 1..] == init;
    }
  }

  lemma {:induction false} NothingRemoved(lines: seq<CartLine>, line: Id)
    requires forall i | 0 <= i < |lines| :: lines[i].id != line
    ensures WithoutLine(lines, line) == lines
  {
    if lines != [] {
      var n := |lines| - 1;
      NothingRemoved(lines[..n], line);
      assert lines == lines[..n] + [lines[n]];
    }
  }

  // ---------- each operation keeps the invariant

  lemma InvTables(s: Store)
    requires Inv(s)
    ensures Linked(s) && OneOpenCart(s.carts)
  {
  }

  lemma AddLineKeepsInv(s: Store, tenant: Id, user: Id, offering: Id, quantity: int)
    requires Inv(s)
    ensures Inv(Orders.AddLine(s, tenant, user, offering, quantity).0)
  {
    hide Inv, Later, Orders.AddLine;
    InvTables(s);
    StepKeeps(s, DoAddLine(tenant, user, offering, quantity));
  }

  lemma EditLineKeepsInv(s: Store, tenant: Id, user: Id, line: Id, quantity: Option<int>)
    requires Inv(s)
    ensures Inv(EditLine(s, tenant, user, line, quantity).0)
  {
    hide Inv, Later, EditLine;
    InvTables(s);
    StepKeeps(s, DoEditLine(tenant, user, line, quantity));
  }

  lemma PlaceOrderKeepsInv(s: Store, tenant: Id, permitted: bool, address: Option<Id>, payment: string)
    requires Inv(s)
    ensures Inv(Orders.PlaceOrder(s, tenant, permitted, address, payment).0)
  {
    hide Inv, Later, Orders.PlaceOrder;
    InvTables(s);
    StepKeeps(s, DoPlaceOrder(tenant, permitted, address, payment));
  }

  lemma AdvanceKeepsInv(s: Store, vendor: Id, order: Id, user: Id, to: SliceStatus, courier: string, tracking: string)
    requires Inv(s)
    ensures Inv(Advance(s, vendor, order, user, to, courier, tracking).0)
  {
    hide Inv, Later, Advance;
    InvTables(s);
    StepKeeps(s, DoAdvance(vendor, order, user, to, courier, tracking));
  }

  lemma IssueRefundKeepsInv(s: Store, vendor: Id, order: Id, user: Id)
    requires Inv(s)
    ensures Inv(IssueRefund(s, vendor, order, user).0)
  {
    hide Inv, Later, IssueRefund;
    InvTables(s);
    StepKeeps(s, DoIssueRefund(vendor, order, user));
  }

  lemma CancelOrderKeepsInv(s: Store, tenant: Id, order: Id, user: Id)
    requires Inv(s)
    ensures Inv(Orders.CancelOrder(s, tenant, order, user).0)
  {
    hide Inv, Later, Orders.CancelOrder;
    InvTables(s);
    StepKeeps(s, DoCancelOrder(tenant, order, user));
  }
}
