/** What every commerce operation keeps, and what holds over every run of them. */
module OrderLaws {
  import opened Errors
  import opened Orders
  import Sums
  import Text

  // ---------- the invariant

  ghost predicate CartOk(lines: seq<CartLine>) {
    && (forall i | 0 <= i < |lines| :: lines[i].quantity >= 1)
    && (forall i, j | 0 <= i < j < |lines| :: lines[i].id != lines[j].id && lines[i].offering != lines[j].offering)
  }

  /** The order's lines are the cart's lines, one for one: same offering, same quantity. */
  ghost predicate Copies(cart: seq<CartLine>, order: seq<OrderLine>) {
    && |cart| == |order|
    && forall i | 0 <= i < |cart| :: cart[i].offering == order[i].offering && cart[i].quantity == order[i].quantity
  }

  predicate Sent(status: SliceStatus) { status == Shipped || status == Delivered }

  ghost predicate SliceOk(slice: Slice, total: int) {
    && !slice.status.Unlisted?
    && (slice.refund != NoRefund <==> slice.status == Cancelled)
    && slice.refundAmount == (if slice.status == Cancelled then Some(total) else None)
    && (slice.courier != "" <==> Sent(slice.status))
    && (slice.tracking != "" <==> Sent(slice.status))
  }

  ghost predicate OrderOk(sellers: map<Id, Id>, o: Order) {
    && o.lines != []
    && (forall i | 0 <= i < |o.lines| :: o.lines[i].offering in sellers)
    && o.slices.Keys == VendorsOf(sellers, o.lines)
    && o.status == Rollup(o.slices, o.status)
    && forall v | v in o.slices :: SliceOk(o.slices[v], VendorTotal(sellers, o.lines, v))
  }

  ghost predicate OrdersOk(sellers: map<Id, Id>, orders: map<Id, Order>) {
    forall o | o in orders :: OrderOk(sellers, orders[o])
  }

  ghost predicate OneOpenCart(carts: map<Id, Cart>) {
    forall t, a, b | IsOpen(carts, t, a) && IsOpen(carts, t, b) :: a == b
  }

  ghost predicate CartsOk(carts: map<Id, Cart>) {
    forall c | c in carts :: CartOk(carts[c].lines)
  }

  /** The order was checked out from its cart and copies it. */
  ghost predicate CheckedOutFrom(carts: map<Id, Cart>, o: Order) {
    && o.cart in carts
    && carts[o.cart].status == CheckedOut
    && carts[o.cart].tenant == o.tenant
    && Copies(carts[o.cart].lines, o.lines)
  }

  ghost predicate Distinct(orders: map<Id, Order>) {
    forall o, p | o in orders && p in orders && orders[o].cart == orders[p].cart :: o == p
  }

  function OrderedCarts(orders: map<Id, Order>): set<Id> {
    set o | o in orders :: orders[o].cart
  }

  /** A cart yields one order exactly when it is checked out, and the order copies it. */
  ghost predicate Checkouts(carts: map<Id, Cart>, orders: map<Id, Order>) {
    && (forall o | o in orders :: CheckedOutFrom(carts, orders[o]))
    && Distinct(orders)
    && (forall c | c in carts && carts[c].status == CheckedOut :: c in OrderedCarts(orders))
  }

  ghost predicate LinesBelow(n: Id, lines: seq<CartLine>) {
    forall i | 0 <= i < |lines| :: lines[i].id < n
  }

  ghost predicate Below(s: Store) {
    && (forall p | p in s.products :: p < s.nextId)
    && (forall f | f in s.offerings :: f < s.nextId)
    && (forall c | c in s.carts :: c < s.nextId && LinesBelow(s.nextId, s.carts[c].lines))
    && (forall o | o in s.orders :: o < s.nextId)
  }

  ghost predicate Inv(s: Store) {
    && Linked(s)
    && Below(s)
    && OneOpenCart(s.carts)
    && CartsOk(s.carts)
    && Checkouts(s.carts, s.orders)
    && OrdersOk(Sellers(s), s.orders)
  }

  // ---------- sellers of lines never change

  ghost predicate Agree(old_: map<Id, Id>, new_: map<Id, Id>) {
    forall f | f in old_ :: f in new_ && new_[f] == old_[f]
  }

  lemma {:induction false} VendorTotalFrame(old_: map<Id, Id>, new_: map<Id, Id>, lines: seq<OrderLine>, v: Id)
    requires Agree(old_, new_)
    requires forall i | 0 <= i < |lines| :: lines[i].offering in old_
    ensures VendorTotal(old_, lines, v) == VendorTotal(new_, lines, v)
  {
    if lines != [] {
      VendorTotalFrame(old_, new_, lines[..|lines| - 1], v);
      assert lines[|lines| - 1].offering in old_;
    }
  }

  lemma {:induction false} OrderOkFrame(old_: map<Id, Id>, new_: map<Id, Id>, o: Order)
    requires Agree(old_, new_) && OrderOk(old_, o)
    ensures OrderOk(new_, o)
  {
    forall i | 0 <= i < |o.lines| ensures o.lines[i].offering in new_
        && old_[o.lines[i].offering] == new_[o.lines[i].offering] {
    }
    assert VendorsOf(old_, o.lines) == VendorsOf(new_, o.lines);
    forall v | v in o.slices ensures SliceOk(o.slices[v], VendorTotal(new_, o.lines, v)) {
      VendorTotalFrame(old_, new_, o.lines, v);
    }
  }

  // ---------- money is conserved across vendors

  ghost function TotalsBy(sellers: map<Id, Id>, lines: seq<OrderLine>, vendors: set<Id>): map<Id, int> {
    map v | v in vendors :: VendorTotal(sellers, lines, v)
  }

  /** The per-vendor totals of any list of lines sum to its total. */
  lemma {:induction false} TotalsPartition(sellers: map<Id, Id>, lines: seq<OrderLine>, vendors: set<Id>)
    requires forall i | 0 <= i < |lines| :: lines[i].offering in sellers && sellers[lines[i].offering] in vendors
    ensures Sums.SumOf(TotalsBy(sellers, lines, vendors)) == Total(lines)
  {
    var m := TotalsBy(sellers, lines, vendors);
    if lines == [] {
      Sums.Zeros(m);
    } else {
      var init, last := lines[..|lines| - 1], lines[|lines| - 1];
      TotalsPartition(sellers, init, vendors);
      var before := TotalsBy(sellers, init, vendors);
      var w := sellers[last.offering];
      assert w in before;
      assert m == before[w := before[w] + LineTotal(last)];
      Sums.Update(before, w, before[w] + LineTotal(last));
    }
  }

  ghost function Refunds(slices: map<Id, Slice>): map<Id, int> {
    map v | v in slices :: if slices[v].refundAmount.Some? then slices[v].refundAmount.value else 0
  }

  lemma {:induction false} VendorTotalAtLeastZero(sellers: map<Id, Id>, lines: seq<OrderLine>, v: Id)
    requires forall i | 0 <= i < |lines| :: lines[i].quantity >= 0
    ensures VendorTotal(sellers, lines, v) >= 0
  {
    if lines != [] {
      VendorTotalAtLeastZero(sellers, lines[..|lines| - 1], v);
    }
  }

  lemma OrderMoney(sellers: map<Id, Id>, o: Order)
    requires OrderOk(sellers, o) && (forall i | 0 <= i < |o.lines| :: o.lines[i].quantity >= 0)
    ensures Sums.SumOf(TotalsBy(sellers, o.lines, o.slices.Keys)) == Total(o.lines)
    ensures Sums.SumOf(Refunds(o.slices)) <= Total(o.lines)
    ensures All(o.slices, Cancelled) ==> Sums.SumOf(Refunds(o.slices)) == Total(o.lines)
  {
    hide Rollup, VendorTotal;
    TotalsPartition(sellers, o.lines, o.slices.Keys);
    var totals, refunds := TotalsBy(sellers, o.lines, o.slices.Keys), Refunds(o.slices);
    forall v | v in o.slices
      ensures refunds[v] <= totals[v] && (o.slices[v].status == Cancelled ==> refunds[v] == totals[v])
    {
      VendorTotalAtLeastZero(sellers, o.lines, v);
      assert SliceOk(o.slices[v], VendorTotal(sellers, o.lines, v));
    }
    Sums.Monotone(refunds, totals);
    if All(o.slices, Cancelled) {
      assert refunds == totals;
    }
  }

  /** In every order: the vendor totals sum to the order total, the refunds never exceed it,
      and they reach it when the order is cancelled. */
  lemma MoneyConserved(s: Store, o: Id)
    requires Inv(s) && o in s.orders
    ensures Sums.SumOf(TotalsBy(Sellers(s), s.orders[o].lines, s.orders[o].slices.Keys)) == Total(s.orders[o].lines)
    ensures Sums.SumOf(Refunds(s.orders[o].slices)) <= Total(s.orders[o].lines)
    ensures s.orders[o].status == OrderCancelled ==> Sums.SumOf(Refunds(s.orders[o].slices)) == Total(s.orders[o].lines)
  {
    hide Linked, Below, OneOpenCart, Rollup, Total, VendorTotal;
    var order := s.orders[o];
    assert OrderOk(Sellers(s), order) && CheckedOutFrom(s.carts, order);
    assert CartOk(s.carts[order.cart].lines);
    assert forall i | 0 <= i < |order.lines| :: order.lines[i].quantity == s.carts[order.cart].lines[i].quantity;
    OrderMoney(Sellers(s), order);
    SomeSlice(Sellers(s), order);
    RollupMeaning(order.slices, order.status);
  }

  lemma SomeSlice(sellers: map<Id, Id>, o: Order)
    requires OrderOk(sellers, o)
    ensures o.slices != map[]
  {
    assert sellers[o.lines[0].offering] in o.slices.Keys;
  }

  // ---------- the order status

  /** What each order status means, without the order in which the rollup tests its cases. */
  lemma RollupMeaning(slices: map<Id, Slice>, before: OrderStatus)
    requires slices != map[]
    ensures Rollup(slices, before) == OrderCancelled <==> All(slices, Cancelled)
    ensures Rollup(slices, before) == OrderDelivered <==> All(slices, Delivered)
    ensures Rollup(slices, before) == OrderPartial <==>
      && (Any(slices, Cancelled) || Any(slices, Delivered))
      && !All(slices, Cancelled) && !All(slices, Delivered)
    ensures Rollup(slices, before) == OrderPlaced <==> All(slices, Placed)
    ensures Rollup(slices, before) == OrderProcessing <==>
      !Any(slices, Cancelled) && !Any(slices, Delivered) && AnyOther(slices, Placed)
  {
    var v :| v in slices;
    assert slices[v].status == slices[v].status;
  }

  function OrderRank(status: OrderStatus): nat {
    match status
    case OrderPlaced => 0
    case OrderProcessing => 1
    case OrderPartial => 2
    case _ => 3
  }

  function SliceRank(status: SliceStatus): nat {
    match status
    case Placed => 6
    case Confirmed => 5
    case Processing => 4
    case Delayed => 3
    case ReadyToShip => 2
    case Shipped => 1
    case _ => 0
  }

  function Ranks(slices: map<Id, Slice>): map<Id, int> {
    map v | v in slices :: SliceRank(slices[v].status)
  }

  /** How a slice may differ later on. */
  ghost predicate SliceLater(before: Slice, after: Slice) {
    && SliceRank(after.status) <= SliceRank(before.status)
    && (after.status == Cancelled ==> before.status == Placed || before.status == Cancelled)
    && (SliceRank(before.status) == 0 ==> after.status == before.status)
    && (before.refundAmount.Some? ==> after.refundAmount == before.refundAmount)
    && (before.refund == RefundPending ==> after.refund != NoRefund)
    && (before.refund == Refunded ==> after == before)
    && (Sent(before.status) ==>
        Sent(after.status) && after.courier == before.courier && after.tracking == before.tracking)
  }

  ghost predicate SlicesLater(before: map<Id, Slice>, after: map<Id, Slice>) {
    before.Keys == after.Keys && forall v | v in before :: SliceLater(before[v], after[v])
  }

  /** The rollup only moves up as slices advance, and its last two values are final. */
  lemma RollupMovesUp(before: map<Id, Slice>, after: map<Id, Slice>, x: OrderStatus, y: OrderStatus)
    requires before != map[] && SlicesLater(before, after)
    ensures OrderRank(Rollup(before, x)) <= OrderRank(Rollup(after, y))
    ensures OrderRank(Rollup(before, x)) == 3 ==> Rollup(after, y) == Rollup(before, x)
  {
    hide Rollup, SliceLater;
    var some :| some in before;
    assert some in after;
    RollupMeaning(before, x);
    RollupMeaning(after, y);
    forall v | v in before
      ensures before[v].status == Cancelled || before[v].status == Delivered ==> after[v].status == before[v].status
      ensures before[v].status != Placed ==> after[v].status != Placed
    {
      LaterFinal(before[v], after[v]);
    }
    match Rollup(before, x)
    case OrderPlaced =>
    case OrderProcessing => assert AnyOther(after, Placed);
    case OrderPartial => assert Any(after, Cancelled) || Any(after, Delivered);
    case OrderCancelled => assert All(after, Cancelled);
    case OrderDelivered => assert All(after, Delivered);
  }

  lemma LaterFinal(before: Slice, after: Slice)
    requires SliceLater(before, after)
    ensures before.status == Cancelled || before.status == Delivered ==> after.status == before.status
    ensures before.status != Placed ==> after.status != Placed
  {
  }

  ghost predicate OrderLater(before: Order, after: Order) {
    && after == before.(status := after.status, slices := after.slices)
    && SlicesLater(before.slices, after.slices)
    && OrderRank(before.status) <= OrderRank(after.status)
    && (OrderRank(before.status) == 3 ==> after.status == before.status)
  }

  ghost predicate OrdersLater(before: map<Id, Order>, after: map<Id, Order>) {
    forall o | o in before :: o in after && OrderLater(before[o], after[o])
  }

  ghost predicate CartsLater(before: map<Id, Cart>, after: map<Id, Cart>) {
    forall c | c in before :: c in after && after[c].tenant == before[c].tenant
                              && (before[c].status == CheckedOut ==> after[c] == before[c])
  }

  /** How the store may differ later on: checked-out carts, order lines and sellers are frozen. */
  ghost predicate Later(s: Store, t: Store) {
    && Agree(Sellers(s), Sellers(t))
    && CartsLater(s.carts, t.carts)
    && OrdersLater(s.orders, t.orders)
  }

  lemma OrderLaterTransitive(a: Order, b: Order, c: Order)
    requires OrderLater(a, b) && OrderLater(b, c)
    ensures OrderLater(a, c)
  {
    forall v | v in a.slices ensures SliceLater(a.slices[v], c.slices[v]) {
      assert SliceLater(a.slices[v], b.slices[v]) && SliceLater(b.slices[v], c.slices[v]);
    }
  }

  lemma LaterTransitive(s: Store, t: Store, u: Store)
    requires Later(s, t) && Later(t, u)
    ensures Later(s, u)
  {
    forall o | o in s.orders ensures o in u.orders && OrderLater(s.orders[o], u.orders[o]) {
      OrderLaterTransitive(s.orders[o], t.orders[o], u.orders[o]);
    }
  }

  lemma OrdersLaterReflexive(orders: map<Id, Order>)
    ensures OrdersLater(orders, orders)
  {
  }

  lemma CartsLaterReflexive(carts: map<Id, Cart>)
    ensures CartsLater(carts, carts)
  {
  }

  lemma OrdersLaterAdd(orders: map<Id, Order>, n: Id, o: Order)
    requires n !in orders
    ensures OrdersLater(orders, orders[n := o])
  {
  }

  // ---------- one step

  lemma CheckoutsFrame(carts: map<Id, Cart>, orders: map<Id, Order>, id: Id, o: Order)
    requires Checkouts(carts, orders) && id in orders
    requires o == orders[id].(status := o.status, slices := o.slices)
    ensures Checkouts(carts, orders[id := o])
  {
    hide Copies;
    var after := orders[id := o];
    forall c | c in carts && carts[c].status == CheckedOut ensures c in OrderedCarts(after) {
      assert c in OrderedCarts(orders);
      var k :| k in orders && orders[k].cart == c;
      assert after[k].cart == c;
    }
    forall k | k in after ensures CheckedOutFrom(carts, after[k]) {
      assert CheckedOutFrom(carts, orders[k]);
    }
  }

  /** Replacing one order by a later version of itself. */
  lemma OrderStep(sellers: map<Id, Id>, carts: map<Id, Cart>, orders: map<Id, Order>, id: Id, o: Order)
    requires OrdersOk(sellers, orders) && Checkouts(carts, orders)
    requires id in orders && o == orders[id].(status := o.status, slices := o.slices)
    requires SlicesLater(orders[id].slices, o.slices)
    requires OrderOk(sellers, o)
    ensures OrdersOk(sellers, orders[id := o]) && Checkouts(carts, orders[id := o])
    ensures OrdersLater(orders, orders[id := o])
  {
    hide Rollup, SliceOk, SliceLater, VendorTotal, VendorsOf, OrderRank, Checkouts;
    assert OrderOk(sellers, orders[id]);
    SomeSlice(sellers, orders[id]);
    SomeSlice(sellers, o);
    RollupMovesUp(orders[id].slices, o.slices, orders[id].status, o.status);
    CheckoutsFrame(carts, orders, id, o);
    OrdersLaterReflexive(orders);
  }

  lemma RollupForgets(slices: map<Id, Slice>, x: OrderStatus, y: OrderStatus)
    requires slices != map[]
    ensures Rollup(slices, x) == Rollup(slices, y)
  {
  }

  ghost function WithSlice(o: Order, vendor: Id, slice: Slice): Order {
    var slices := o.slices[vendor := slice];
    o.(slices := slices, status := Rollup(slices, o.status))
  }

  /** Replacing one slice of one order by a later version of itself, and rolling the order up. */
  lemma SliceStep(sellers: map<Id, Id>, carts: map<Id, Cart>, orders: map<Id, Order>, id: Id, vendor: Id, slice: Slice)
    requires OrdersOk(sellers, orders) && Checkouts(carts, orders)
    requires id in orders && vendor in orders[id].slices
    requires SliceLater(orders[id].slices[vendor], slice)
    requires SliceOk(slice, VendorTotal(sellers, orders[id].lines, vendor))
    ensures var after := orders[id := WithSlice(orders[id], vendor, slice)];
      OrdersOk(sellers, after) && Checkouts(carts, after) && OrdersLater(orders, after)
  {
    hide Checkouts, OrdersLater, SliceOk, VendorTotal, Rollup;
    var o, w := orders[id], WithSlice(orders[id], vendor, slice);
    assert OrderOk(sellers, o);
    assert w.slices.Keys == o.slices.Keys;
    RollupForgets(w.slices, o.status, w.status);
    OrderStep(sellers, carts, orders, id, w);
  }

  lemma MovedOk(slice: Slice, to: SliceStatus, courier: string, tracking: string, total: int)
    requires SliceOk(slice, total) && to in Successors(slice.status)
    requires to == Shipped ==> courier != "" && tracking != ""
    ensures SliceOk(Moved(slice, to, courier, tracking, total), total)
    ensures SliceLater(slice, Moved(slice, to, courier, tracking, total))
    ensures SliceRank(to) < SliceRank(slice.status)
  {
  }

  /** What every order operation keeps. */
  ghost predicate OrderTablesOk(s: Store) {
    OrdersOk(Sellers(s), s.orders) && Checkouts(s.carts, s.orders)
  }

  ghost predicate OrdersMoved(s: Store, t: Store) {
    t == s.(orders := t.orders) && t.orders.Keys == s.orders.Keys && OrderTablesOk(t) && OrdersLater(s.orders, t.orders)
  }

  lemma AdvanceStep(s: Store, vendor: Id, order: Id, user: Id, to: SliceStatus, courier: string, tracking: string)
    requires OrderTablesOk(s)
    ensures var (t, out) := Advance(s, vendor, order, user, to, courier, tracking);
      && OrdersMoved(s, t)
      && (out == Done ==>
            && order in s.orders && vendor in s.orders[order].slices
            && Ranks(t.orders[order].slices) == Ranks(s.orders[order].slices)[vendor := SliceRank(to)]
            && SliceRank(to) < SliceRank(s.orders[order].slices[vendor].status))
  {
    hide Rollup, Checkouts, OrdersLater, SliceOk, SliceLater, VendorTotal, SellersOf, VendorsOf, Text.Strip;
    var (t, out) := Advance(s, vendor, order, user, to, courier, tracking);
    OrdersLaterReflexive(s.orders);
    if out == Done {
      var o := s.orders[order];
      var total := VendorTotal(Sellers(s), o.lines, vendor);
      assert OrderOk(Sellers(s), o);
      assert vendor in o.slices;
      assert SliceOk(o.slices[vendor], total);
      MovedOk(o.slices[vendor], to, Text.Strip(courier), Text.Strip(tracking), total);
      var moved := Moved(o.slices[vendor], to, Text.Strip(courier), Text.Strip(tracking), total);
      SliceStep(Sellers(s), s.carts, s.orders, order, vendor, moved);
      assert t.orders == s.orders[order := WithSlice(o, vendor, moved)];
    }
  }

  /** An advance is accepted exactly along an edge of the transition table, by an owner of a vendor
      with a line on the order; it moves that slice and no other, and records what was shipped. */
  lemma AdvanceEffect(s: Store, vendor: Id, order: Id, user: Id, to: SliceStatus, courier: string, tracking: string)
    requires OrderTablesOk(s)
    ensures var (t, out) := Advance(s, vendor, order, user, to, courier, tracking);
      && (out == Done <==>
            && vendor in s.owners && user in s.owners[vendor]
            && order in s.orders && vendor in s.orders[order].slices
            && to in Successors(s.orders[order].slices[vendor].status)
            && (to == Shipped ==> Text.Strip(courier) != "" && Text.Strip(tracking) != ""))
      && (out != Done ==> t == s)
      && (out == Done ==>
            && t.orders[order].slices[vendor].status == to
            && (to == Shipped ==> t.orders[order].slices[vendor].courier == Text.Strip(courier)
                                  && t.orders[order].slices[vendor].tracking == Text.Strip(tracking))
            && t.orders == s.orders[order := t.orders[order]]
            && t.orders[order].slices == s.orders[order].slices[vendor := t.orders[order].slices[vendor]])
  {
    hide Rollup, Checkouts, SliceOk, VendorTotal, SellersOf, VendorsOf;
    if order in s.orders {
      assert OrderOk(Sellers(s), s.orders[order]);
    }
  }

  lemma IssueRefundStep(s: Store, vendor: Id, order: Id, user: Id)
    requires OrderTablesOk(s)
    ensures OrdersMoved(s, IssueRefund(s, vendor, order, user).0)
  {
    hide Rollup, Checkouts, OrdersLater, VendorTotal, SellersOf, VendorsOf;
    var (t, out) := IssueRefund(s, vendor, order, user);
    OrdersLaterReflexive(s.orders);
    if out == Done {
      var o := s.orders[order];
      var refunded := t.orders[order].slices[vendor];
      assert OrderOk(Sellers(s), o);
      assert SliceOk(o.slices[vendor], VendorTotal(Sellers(s), o.lines, vendor));
      SliceStep(Sellers(s), s.carts, s.orders, order, vendor, refunded);
      SameStatuses(o.slices, o.slices[vendor := refunded], o.status);
      assert t.orders == s.orders[order := WithSlice(o, vendor, refunded)];
    }
  }

  /** The rollup looks at statuses only. */
  lemma SameStatuses(before: map<Id, Slice>, after: map<Id, Slice>, x: OrderStatus)
    requires before.Keys == after.Keys
    requires forall v | v in before :: after[v].status == before[v].status
    ensures Rollup(after, x) == Rollup(before, x)
  {
    if before != map[] {
      var v :| v in before;
      assert v in after;
      RollupMeaning(before, x);
      RollupMeaning(after, x);
    }
  }

  /** Cancelling every slice of an order that has not started. */
  lemma CancelledOk(sellers: map<Id, Id>, o: Order)
    requires OrderOk(sellers, o) && !AnyOther(o.slices, Placed)
    ensures var c := o.(slices := AllCancelled(sellers, o), status := OrderCancelled);
      OrderOk(sellers, c) && SlicesLater(o.slices, c.slices)
  {
    hide VendorTotal, VendorsOf;
    var c := o.(slices := AllCancelled(sellers, o), status := OrderCancelled);
    forall v | v in o.slices ensures SliceOk(c.slices[v], VendorTotal(sellers, o.lines, v))
        && SliceLater(o.slices[v], c.slices[v]) {
      assert o.slices[v].status == Placed;
      assert SliceOk(o.slices[v], VendorTotal(sellers, o.lines, v));
    }
    SomeSlice(sellers, o);
    assert All(c.slices, Cancelled);
  }

  lemma CancelOrderStep(s: Store, tenant: Id, order: Id, user: Id)
    requires OrderTablesOk(s)
    ensures OrdersMoved(s, CancelOrder(s, tenant, order, user).0)
  {
    hide OrderOk, Checkouts, OrdersLater, AllCancelled, SellersOf, SlicesLater;
    var (t, out) := CancelOrder(s, tenant, order, user);
    OrdersLaterReflexive(s.orders);
    if out == Done {
      assert OrderOk(Sellers(s), s.orders[order]);
      CancelledOk(Sellers(s), s.orders[order]);
      OrderStep(Sellers(s), s.carts, s.orders, order, t.orders[order]);
    }
  }

  /** What cart edits keep: one open cart per tenant, well-formed lines, and every checkout. */
  ghost predicate CartTablesOk(n: Id, offerings: set<Id>, carts: map<Id, Cart>, orders: map<Id, Order>) {
    && OneOpenCart(carts)
    && CartsOk(carts)
    && LinesLinked(offerings, carts)
    && Checkouts(carts, orders)
    && (forall c | c in carts :: c < n && LinesBelow(n, carts[c].lines))
  }

  /** One open cart was added or changed. */
  lemma CartStep(n: Id, m: Id, offerings: set<Id>, carts: map<Id, Cart>, orders: map<Id, Order>, c: Id, cart: Cart)
    requires CartTablesOk(n, offerings, carts, orders) && n <= m && c < m
    requires cart.status == Open && CartOk(cart.lines) && LinksTo(offerings, cart.lines) && LinesBelow(m, cart.lines)
    requires if c in carts then IsOpen(carts, cart.tenant, c) else OpenCart(carts, cart.tenant) == None
    ensures CartTablesOk(m, offerings, carts[c := cart], orders)
    ensures CartsLater(carts, carts[c := cart])
  {
    var after := carts[c := cart];
    forall t, a, b | IsOpen(after, t, a) && IsOpen(after, t, b) ensures a == b {
      assert a != c ==> IsOpen(carts, t, a);
      assert b != c ==> IsOpen(carts, t, b);
    }
    forall o | o in orders ensures CheckedOutFrom(after, orders[o]) {
      assert CheckedOutFrom(carts, orders[o]);
    }
    forall k | k in after ensures k < m && LinesBelow(m, after[k].lines) {
      assert k != c ==> LinesBelow(n, carts[k].lines);
    }
  }

  lemma AddLineStep(s: Store, tenant: Id, user: Id, offering: Id, quantity: int)
    requires Linked(s) && CartTablesOk(s.nextId, s.offerings.Keys, s.carts, s.orders)
    ensures var t := AddLine(s, tenant, user, offering, quantity).0;
      && t == s.(nextId := t.nextId, carts := t.carts) && s.nextId <= t.nextId
      && CartTablesOk(t.nextId, s.offerings.Keys, t.carts, s.orders) && CartsLater(s.carts, t.carts)
  {
    var (t, out) := AddLine(s, tenant, user, offering, quantity);
    if out == Done {
      match OpenCart(s.carts, tenant)
      case None =>
        CartStep(s.nextId, t.nextId, s.offerings.Keys, s.carts, s.orders, s.nextId, t.carts[s.nextId]);
      case Some(c) =>
        assert LinesBelow(s.nextId, s.carts[c].lines) && CartOk(s.carts[c].lines)
            && LinksTo(s.offerings.Keys, s.carts[c].lines);
        CartStep(s.nextId, t.nextId, s.offerings.Keys, s.carts, s.orders, c, t.carts[c]);
    }
  }

  lemma {:induction false} WithoutLineKeeps(lines: seq<CartLine>, line: Id)
    requires CartOk(lines)
    ensures CartOk(WithoutLine(lines, line))
  {
    if lines != [] {
      var init, last := lines[..|lines| - 1], lines[|lines| - 1];
      WithoutLineKeeps(init, line);
      var rest := WithoutLine(init, line);
      forall i | 0 <= i < |rest| ensures rest[i].id != last.id && rest[i].offering != last.offering {
        assert rest[i] in init;
        var j :| 0 <= j < |init| && init[j] == rest[i];
        assert lines[j] == rest[i];
      }
    }
  }

  lemma EditedLinesOk(n: Id, offerings: set<Id>, lines: seq<CartLine>, line: Id, quantity: Option<int>)
    requires CartOk(lines) && LinksTo(offerings, lines) && LinesBelow(n, lines)
    requires quantity.Some? ==> quantity.value >= 1
    ensures var edited := EditedLines(lines, line, quantity);
      CartOk(edited) && LinksTo(offerings, edited) && LinesBelow(n, edited)
  {
    var edited := EditedLines(lines, line, quantity);
    if quantity.None? {
      WithoutLineKeeps(lines, line);
      forall i | 0 <= i < |edited| ensures edited[i].offering in offerings && edited[i].id < n {
        assert edited[i] in lines;
      }
    }
  }

  lemma EditLineStep(s: Store, tenant: Id, user: Id, line: Id, quantity: Option<int>)
    requires CartTablesOk(s.nextId, s.offerings.Keys, s.carts, s.orders)
    ensures var t := EditLine(s, tenant, user, line, quantity).0;
      && t == s.(carts := t.carts)
      && CartTablesOk(t.nextId, s.offerings.Keys, t.carts, s.orders) && CartsLater(s.carts, t.carts)
  {
    var (t, out) := EditLine(s, tenant, user, line, quantity);
    if out == Done {
      var c := OpenCart(s.carts, tenant).value;
      EditedLinesOk(s.nextId, s.offerings.Keys, s.carts[c].lines, line, quantity);
      CartStep(s.nextId, s.nextId, s.offerings.Keys, s.carts, s.orders, c, t.carts[c]);
    }
  }

  /** Closing an open cart and adding the order that copies it. */
  lemma CheckoutStep(n: Id, offerings: set<Id>, carts: map<Id, Cart>, orders: map<Id, Order>, o: Order)
    requires CartTablesOk(n, offerings, carts, orders) && n !in orders
    requires o.cart in carts && IsOpen(carts, o.tenant, o.cart) && Copies(carts[o.cart].lines, o.lines)
    ensures var closed := carts[o.cart := carts[o.cart].(status := CheckedOut)];
      CartTablesOk(n + 1, offerings, closed, orders[n := o]) && CartsLater(carts, closed)
  {
    hide Copies, CartOk;
    var c := o.cart;
    var closed, after := carts[c := carts[c].(status := CheckedOut)], orders[n := o];
    forall t, a, b | IsOpen(closed, t, a) && IsOpen(closed, t, b) ensures a == b {
      assert IsOpen(carts, t, a) && IsOpen(carts, t, b);
    }
    forall k | k in after ensures CheckedOutFrom(closed, after[k]) {
      assert k != n ==> CheckedOutFrom(carts, orders[k]);
    }
    forall k | k in closed && closed[k].status == CheckedOut ensures k in OrderedCarts(after) {
      if k == c {
        assert after[n].cart == c;
      } else {
        assert k in OrderedCarts(orders);
        var x :| x in orders && orders[x].cart == k;
        assert after[x].cart == k;
      }
    }
    forall k | k in closed ensures k < n + 1 && LinesBelow(n + 1, closed[k].lines) {
      assert LinesBelow(n, carts[k].lines);
    }
  }

  lemma NewOrderOk(sellers: map<Id, Id>, o: Order)
    requires o.lines != [] && o.status == OrderPlaced
    requires forall i | 0 <= i < |o.lines| :: o.lines[i].offering in sellers
    requires o.slices == NewSlices(VendorsOf(sellers, o.lines))
    ensures OrderOk(sellers, o)
  {
    assert sellers[o.lines[0].offering] in o.slices;
    RollupMeaning(o.slices, o.status);
  }

  lemma EveryOfferingSold(products: map<Id, Product>, offerings: map<Id, Offering>)
    requires forall f | f in offerings :: offerings[f].product in products
    ensures SellersOf(products, offerings).Keys == offerings.Keys
  {
  }

  /** Checkout: one new order, copied from the tenant's open cart at today's names and prices. */
  lemma PlaceOrderStep(s: Store, tenant: Id, permitted: bool, address: Option<Id>, payment: string)
    requires Linked(s) && CartTablesOk(s.nextId, s.offerings.Keys, s.carts, s.orders)
    requires OrdersOk(Sellers(s), s.orders) && s.nextId !in s.orders
    ensures var (t, out) := PlaceOrder(s, tenant, permitted, address, payment);
      && t == s.(nextId := t.nextId, carts := t.carts, orders := t.orders) && s.nextId <= t.nextId
      && CartTablesOk(t.nextId, s.offerings.Keys, t.carts, t.orders) && CartsLater(s.carts, t.carts)
      && OrdersOk(Sellers(s), t.orders) && OrdersLater(s.orders, t.orders)
      && t.orders.Keys == s.orders.Keys + (if out == Done then {s.nextId} else {})
      && t.nextId == s.nextId + (if out == Done then 1 else 0)
  {
    hide OrderOk, CartTablesOk, OrdersLater, CartsLater, SellersOf, VendorsOf, NewSlices, NeedsAddress, ActiveAddress,
      Text.Strip, Text.Lower;
    CartsLaterReflexive(s.carts);
    var (t, out) := PlaceOrder(s, tenant, permitted, address, payment);
    OrdersLaterReflexive(s.orders);
    if out == Done {
      var o := t.orders[s.nextId];
      var lines := s.carts[o.cart].lines;
      assert LinksTo(s.offerings.Keys, lines);
      assert forall i | 0 <= i < |lines| :: o.lines[i] == Snapshot(s, lines[i]);
      assert Copies(lines, o.lines);
      CheckoutStep(s.nextId, s.offerings.Keys, s.carts, s.orders, o);
      OrdersLaterAdd(s.orders, s.nextId, o);
      EveryOfferingSold(s.products, s.offerings);
      NewOrderOk(Sellers(s), o);
    }
  }

  /** Products and offerings were added or edited without changing any seller. */
  lemma CatalogueStep(s: Store, t: Store)
    requires Inv(s) && (forall f | f in t.offerings :: t.offerings[f].product in t.products)
    requires t == s.(nextId := t.nextId, tenants := t.tenants, members := t.members, owners := t.owners,
                     addresses := t.addresses, products := t.products, offerings := t.offerings)
    requires s.nextId <= t.nextId && s.offerings.Keys <= t.offerings.Keys
    requires forall p | p in t.products :: p < t.nextId
    requires forall f | f in t.offerings :: f < t.nextId
    requires Agree(Sellers(s), Sellers(t))
    ensures Inv(t) && Later(s, t)
  {
    hide OrderOk, Checkouts, OneOpenCart, CartsOk, SellersOf;
    forall o | o in t.orders ensures OrderOk(Sellers(t), t.orders[o]) {
      assert OrderOk(Sellers(s), s.orders[o]);
      OrderOkFrame(Sellers(s), Sellers(t), s.orders[o]);
    }
    forall c | c in t.carts ensures c < t.nextId && LinesBelow(t.nextId, t.carts[c].lines)
        && LinksTo(t.offerings.Keys, t.carts[c].lines) {
      assert LinesBelow(s.nextId, s.carts[c].lines) && LinksTo(s.offerings.Keys, s.carts[c].lines);
    }
    OrdersLaterReflexive(s.orders);
  }

  lemma SellersStay(products: map<Id, Product>, products': map<Id, Product>, offerings: map<Id, Offering>,
                    offerings': map<Id, Offering>)
    requires forall f | f in offerings :: offerings[f].product in products
    requires forall p | p in products :: p in products' && products'[p].vendor == products[p].vendor
    requires forall f | f in offerings :: f in offerings' && offerings'[f].product == offerings[f].product
    ensures Agree(SellersOf(products, offerings), SellersOf(products', offerings'))
  {
  }

  lemma NewRowStep(s: Store, cmd: Command)
    requires Inv(s) && (cmd.NewProduct? || cmd.NewOffering?)
    ensures Inv(Apply(s, cmd).0) && Later(s, Apply(s, cmd).0)
  {
    hide AddLine, EditLine, PlaceOrder, Advance, IssueRefund, CancelOrder;
    hide OrdersOk, Checkouts, OneOpenCart, CartsOk, OrdersLater, LinesLinked, LinesBelow, SellersOf;
    OrdersLaterReflexive(s.orders);
    var t := Apply(s, cmd).0;
    if t != s {
      SellersStay(s.products, t.products, s.offerings, t.offerings);
      CatalogueStep(s, t);
    }
  }

  lemma EditRowStep(s: Store, cmd: Command)
    requires Inv(s) && (cmd.EditProduct? || cmd.EditOffering? || cmd.EditDirectory?)
    ensures Inv(Apply(s, cmd).0) && Later(s, Apply(s, cmd).0)
  {
    hide AddLine, EditLine, PlaceOrder, Advance, IssueRefund, CancelOrder;
    hide OrdersOk, Checkouts, OneOpenCart, CartsOk, OrdersLater, LinesLinked, LinesBelow, SellersOf;
    OrdersLaterReflexive(s.orders);
    var t := Apply(s, cmd).0;
    if t != s {
      SellersStay(s.products, t.products, s.offerings, t.offerings);
      CatalogueStep(s, t);
    }
  }

  /** Every step keeps the invariant and only moves the store forward. */
  lemma StepKeeps(s: Store, cmd: Command)
    requires Inv(s)
    ensures Inv(Apply(s, cmd).0) && Later(s, Apply(s, cmd).0)
  {
    hide AddLine, EditLine, PlaceOrder, Advance, IssueRefund, CancelOrder;
    hide OrdersOk, Checkouts, OneOpenCart, CartsOk, OrdersLater, LinesLinked, LinesBelow, SellersOf;
    OrdersLaterReflexive(s.orders);
    match cmd
    case DoAddLine(tenant, user, offering, quantity) => AddLineStep(s, tenant, user, offering, quantity);
    case DoEditLine(tenant, user, line, quantity) => EditLineStep(s, tenant, user, line, quantity);
    case DoPlaceOrder(tenant, permitted, address, payment) => PlaceOrderStep(s, tenant, permitted, address, payment);
    case DoAdvance(vendor, order, user, to, courier, tracking) =>
      AdvanceStep(s, vendor, order, user, to, courier, tracking);
    case DoIssueRefund(vendor, order, user) => IssueRefundStep(s, vendor, order, user);
    case DoCancelOrder(tenant, order, user) => CancelOrderStep(s, tenant, order, user);
    case NewProduct(_) => NewRowStep(s, cmd);
    case NewOffering(_) => NewRowStep(s, cmd);
    case _ => EditRowStep(s, cmd);
  }

  // ---------- every run

  ghost function Run(s: Store, cmds: seq<Command>): (t: Store)
    requires Inv(s)
    ensures Inv(t) && Later(s, t)
    decreases |cmds|
  {
    if cmds == [] then OrdersLaterReflexive(s.orders); s else
      StepKeeps(s, cmds[0]);
      var next := Apply(s, cmds[0]).0;
      LaterTransitive(s, next, Run(next, cmds[1..]));
      Run(next, cmds[1..])
  }

  const START := Store(0, {}, {}, map[], map[], map[], map[], map[], map[])

  lemma StartOk()
    ensures Inv(START)
  {
  }

  /** Whatever happens later, an order keeps the lines it copied from its cart, and the cart keeps its own. */
  lemma CheckoutIsPermanent(s: Store, cmds: seq<Command>, o: Id)
    requires Inv(s) && o in s.orders
    ensures var t := Run(s, cmds);
      && o in t.orders
      && t.orders[o].lines == s.orders[o].lines
      && t.orders[o].cart == s.orders[o].cart
      && t.carts[t.orders[o].cart] == s.carts[s.orders[o].cart]
      && Copies(t.carts[t.orders[o].cart].lines, t.orders[o].lines)
      && t.orders[o].slices.Keys == VendorsOf(Sellers(t), t.orders[o].lines)
  {
    var t := Run(s, cmds);
    assert OrderLater(s.orders[o], t.orders[o]);
    assert OrderOk(Sellers(t), t.orders[o]);
  }

  /** In every state of every run a tenant has one open cart at most, and a cart has one order exactly
      when it is checked out, and none before. */
  lemma OneOrderPerCart(s: Store, cmds: seq<Command>)
    requires Inv(s)
    ensures var t := Run(s, cmds);
      && (forall tenant, a, b | IsOpen(t.carts, tenant, a) && IsOpen(t.carts, tenant, b) :: a == b)
      && (forall c | c in t.carts :: t.carts[c].status == CheckedOut <==> c in OrderedCarts(t.orders))
      && (forall o, p | o in t.orders && p in t.orders && t.orders[o].cart == t.orders[p].cart :: o == p)
  {
    hide Run, Linked, Below, CartsOk, OrdersOk, Copies;
    var t := Run(s, cmds);
    forall c | c in t.carts && c in OrderedCarts(t.orders) ensures t.carts[c].status == CheckedOut {
      var o :| o in t.orders && t.orders[o].cart == c;
      assert CheckedOutFrom(t.carts, t.orders[o]);
    }
  }

  /** What the cart costs now. */
  function CartTotal(s: Store, lines: seq<CartLine>): int
    requires forall i | 0 <= i < |lines| :: lines[i].offering in s.offerings
  {
    if lines == [] then 0
    else
      var last := lines[|lines| - 1];
      CartTotal(s, lines[..|lines| - 1]) + s.offerings[last.offering].price * last.quantity
  }

  lemma {:induction false} SnapshotsTotal(s: Store, lines: seq<CartLine>)
    requires forall i | 0 <= i < |lines| ::
        lines[i].offering in s.offerings && s.offerings[lines[i].offering].product in s.products
    ensures Total(Snapshots(s, lines)) == CartTotal(s, lines)
  {
    if lines != [] {
      var front := lines[..|lines| - 1];
      SnapshotsTotal(s, front);
      assert Snapshots(s, lines)[..|lines| - 1] == Snapshots(s, front);
    }
  }

  /** The order charges what its cart costs in this state, and each line's vendor has a slice of it. */
  ghost predicate Charges(s: Store, o: Order) {
    && o.cart in s.carts && LinksTo(s.offerings.Keys, s.carts[o.cart].lines)
    && var lines := s.carts[o.cart].lines;
       && Total(o.lines) == CartTotal(s, lines)
       && forall i | 0 <= i < |lines| :: lines[i].offering in Sellers(s) && Sellers(s)[lines[i].offering] in o.slices
  }

  /** A checkout charges what the cart costs at that moment, to be sent by the vendors of its lines. */
  lemma CheckoutCharges(s: Store, tenant: Id, permitted: bool, address: Option<Id>, payment: string)
    requires Inv(s) && PlaceOrder(s, tenant, permitted, address, payment).1 == Done
    ensures var t := PlaceOrder(s, tenant, permitted, address, payment).0;
      && t.orders.Keys == s.orders.Keys + {s.nextId} && s.nextId !in s.orders
      && IsOpen(s.carts, tenant, t.orders[s.nextId].cart)
      && Charges(s, t.orders[s.nextId])
  {
    hide CartsOk, Checkouts, OrdersOk, Text.Strip, Text.Lower, Below;
    FreshOrder(s);
    var c := OpenCart(s.carts, tenant).value;
    SnapshotsTotal(s, s.carts[c].lines);
    var lines := Snapshots(s, s.carts[c].lines);
    forall i | 0 <= i < |s.carts[c].lines|
      ensures Sellers(s)[s.carts[c].lines[i].offering] in VendorsOf(Sellers(s), lines)
    {
      assert lines[i].offering == s.carts[c].lines[i].offering;
    }
  }

  ghost predicate NoOpenCart(carts: map<Id, Cart>, tenant: Id) {
    forall c :: !IsOpen(carts, tenant, c)
  }

  lemma CheckoutClosesCart(s: Store, tenant: Id, permitted: bool, address: Option<Id>, payment: string)
    requires Inv(s) && PlaceOrder(s, tenant, permitted, address, payment).1 == Done
    ensures NoOpenCart(PlaceOrder(s, tenant, permitted, address, payment).0.carts, tenant)
  {
    hide CartsOk, Checkouts, OrdersOk, Text.Strip, Text.Lower, Below;
    var t := PlaceOrder(s, tenant, permitted, address, payment).0;
    var c := OpenCart(s.carts, tenant).value;
    forall k ensures !IsOpen(t.carts, tenant, k) {
      assert IsOpen(t.carts, tenant, k) ==> k != c && IsOpen(s.carts, tenant, k);
    }
  }

  /** Only a line added for the tenant opens a cart of it. */
  lemma NoCartStep(s: Store, cmd: Command, tenant: Id)
    requires Inv(s) && NoOpenCart(s.carts, tenant) && !(cmd.DoAddLine? && cmd.tenant == tenant)
    ensures NoOpenCart(Apply(s, cmd).0.carts, tenant)
  {
    hide Below, OneOpenCart, OrdersOk, Checkouts, CartsOk, NoOpenCart, AddLine, EditLine, PlaceOrder, Advance,
         IssueRefund, CancelOrder;
    match cmd
    case DoAddLine(t, user, offering, quantity) => AddElsewhere(s, t, user, offering, quantity, tenant);
    case DoEditLine(t, user, line, quantity) => EditOpensNone(s, t, user, line, quantity, tenant);
    case DoPlaceOrder(t, permitted, address, payment) => PlaceOpensNone(s, t, permitted, address, payment, tenant);
    case DoAdvance(vendor, order, user, to, courier, tracking) =>
      AdvanceCarts(s, vendor, order, user, to, courier, tracking);
    case DoIssueRefund(vendor, order, user) => RefundCarts(s, vendor, order, user);
    case DoCancelOrder(t, order, user) => CancelCarts(s, t, order, user);
    case _ =>
  }

  lemma OneCart(carts: map<Id, Cart>, c: Id, cart: Cart, tenant: Id)
    requires NoOpenCart(carts, tenant) && (cart.tenant != tenant || cart.status != Open)
    ensures NoOpenCart(carts[c := cart], tenant)
  {
    var after := carts[c := cart];
    forall k ensures !IsOpen(after, tenant, k) {
      assert !IsOpen(carts, tenant, k);
    }
  }

  lemma AddElsewhere(s: Store, t: Id, user: Id, offering: Id, quantity: int, tenant: Id)
    requires Linked(s) && NoOpenCart(s.carts, tenant) && t != tenant
    ensures NoOpenCart(AddLine(s, t, user, offering, quantity).0.carts, tenant)
  {
    hide NoOpenCart, Linked, HasOffering;
    var after := AddLine(s, t, user, offering, quantity).0.carts;
    if after != s.carts {
      var c := if OpenCart(s.carts, t).Some? then OpenCart(s.carts, t).value else s.nextId;
      assert after == s.carts[c := after[c]] && after[c].tenant == t;
      OneCart(s.carts, c, after[c], tenant);
    }
  }

  lemma EditOpensNone(s: Store, t: Id, user: Id, line: Id, quantity: Option<int>, tenant: Id)
    requires NoOpenCart(s.carts, tenant)
    ensures NoOpenCart(EditLine(s, t, user, line, quantity).0.carts, tenant)
  {
    hide HasLine, EditedLines;
    var after := EditLine(s, t, user, line, quantity).0.carts;
    if after != s.carts {
      var c := OpenCart(s.carts, t).value;
      assert !IsOpen(s.carts, tenant, c);
      hide NoOpenCart;
      assert after == s.carts[c := after[c]];
      OneCart(s.carts, c, after[c], tenant);
    }
  }

  lemma PlaceOpensNone(s: Store, t: Id, permitted: bool, address: Option<Id>, payment: string, tenant: Id)
    requires Linked(s) && NoOpenCart(s.carts, tenant)
    ensures NoOpenCart(PlaceOrder(s, t, permitted, address, payment).0.carts, tenant)
  {
    hide NoOpenCart, Text.Strip, Text.Lower, VendorsOf, NewSlices, ActiveAddress;
    var after := PlaceOrder(s, t, permitted, address, payment).0.carts;
    if after != s.carts {
      var c := OpenCart(s.carts, t).value;
      assert after == s.carts[c := s.carts[c].(status := CheckedOut)];
      OneCart(s.carts, c, after[c], tenant);
    }
  }

  lemma AdvanceCarts(s: Store, vendor: Id, o: Id, user: Id, to: SliceStatus, courier: string, tracking: string)
    requires Linked(s)
    ensures Advance(s, vendor, o, user, to, courier, tracking).0.carts == s.carts
  {
  }

  lemma RefundCarts(s: Store, vendor: Id, o: Id, user: Id)
    ensures IssueRefund(s, vendor, o, user).0.carts == s.carts
  {
  }

  lemma CancelCarts(s: Store, tenant: Id, o: Id, user: Id)
    requires Linked(s)
    ensures CancelOrder(s, tenant, o, user).0.carts == s.carts
  {
  }

  lemma IsLinked(s: Store)
    requires Inv(s)
    ensures Linked(s)
  {
    hide Linked, Below, OneOpenCart, CartsOk, Checkouts, OrdersOk;
  }

  lemma {:induction false} NoCartRun(s: Store, cmds: seq<Command>, tenant: Id)
    requires Inv(s) && NoOpenCart(s.carts, tenant)
    requires forall i | 0 <= i < |cmds| :: !(cmds[i].DoAddLine? && cmds[i].tenant == tenant)
    ensures NoOpenCart(Run(s, cmds).carts, tenant)
    decreases |cmds|
  {
    hide Inv, Apply, NoOpenCart;
    if cmds != [] {
      assert Linked(s) by { IsLinked(s); }
      StepKeeps(s, cmds[0]);
      NoCartStep(s, cmds[0], tenant);
      NoCartRun(Apply(s, cmds[0]).0, cmds[1..], tenant);
    }
  }

  /** A checkout leaves the tenant without an open cart: over any run in which no line is added for the
      tenant, checking out again is refused, and for want of a cart if for nothing else. */
  lemma SecondCheckoutRefused(s: Store, tenant: Id, permitted: bool, address: Option<Id>, payment: string,
                              cmds: seq<Command>, permitted2: bool, address2: Option<Id>, payment2: string)
    requires Inv(s) && PlaceOrder(s, tenant, permitted, address, payment).1 == Done
    requires forall i | 0 <= i < |cmds| :: !(cmds[i].DoAddLine? && cmds[i].tenant == tenant)
    ensures Inv(PlaceOrder(s, tenant, permitted, address, payment).0)
    ensures var z := Run(PlaceOrder(s, tenant, permitted, address, payment).0, cmds);
      var (t, out) := PlaceOrder(z, tenant, permitted2, address2, payment2);
      t == z && out != Done && (permitted2 && Text.Lower(Text.Strip(payment2)) in PAYMENT_METHODS
                                ==> out == Refused(Conflict))
  {
    StepKeeps(s, DoPlaceOrder(tenant, permitted, address, payment));
    CheckoutClosesCart(s, tenant, permitted, address, payment);
    var placed := PlaceOrder(s, tenant, permitted, address, payment).0;
    assert Inv(placed) by { assert Apply(s, DoPlaceOrder(tenant, permitted, address, payment)).0 == placed; }
    hide Inv, Run, PlaceOrder;
    NoCartRun(placed, cmds, tenant);
    NoCartRefuses(Run(placed, cmds), tenant, permitted2, address2, payment2);
  }

  lemma NoCartRefuses(z: Store, tenant: Id, permitted: bool, address: Option<Id>, payment: string)
    requires Inv(z) && NoOpenCart(z.carts, tenant)
    ensures var (t, out) := PlaceOrder(z, tenant, permitted, address, payment);
      t == z && out != Done && (permitted && Text.Lower(Text.Strip(payment)) in PAYMENT_METHODS
                                ==> out == Refused(Conflict))
  {
    hide CartsOk, Checkouts, OrdersOk, Below, Text.Strip, Text.Lower;
    assert OpenCart(z.carts, tenant).None?;
  }

  lemma FreshOrder(s: Store)
    requires Inv(s)
    ensures s.nextId !in s.orders
  {
    hide OrdersOk, Checkouts, CartsOk, OneOpenCart;
  }

  /** Over any run the status of an order is the rollup of its slices and only moves up. */
  lemma StatusFollowsSlices(s: Store, cmds: seq<Command>, o: Id)
    requires Inv(s) && o in s.orders
    ensures var before, after := s.orders[o], Run(s, cmds).orders[o];
      && after.status == Rollup(after.slices, before.status)
      && OrderRank(before.status) <= OrderRank(after.status)
      && (before.status == OrderCancelled || before.status == OrderDelivered ==> after.status == before.status)
  {
    hide Run, Linked, Below, OneOpenCart, CartsOk, Checkouts, SliceOk, SlicesLater, VendorTotal, VendorsOf;
    var t := Run(s, cmds);
    assert OrderLater(s.orders[o], t.orders[o]);
    assert OrderOk(Sellers(t), t.orders[o]);
    SomeSlice(Sellers(t), t.orders[o]);
    RollupForgets(t.orders[o].slices, s.orders[o].status, t.orders[o].status);
  }

  // ---------- the slice protocol

  predicate IsAdvanceOf(cmd: Command, o: Id) { cmd.DoAdvance? && cmd.order == o }

  ghost function AcceptedAdvances(s: Store, cmds: seq<Command>, o: Id): nat
    requires Inv(s)
    decreases |cmds|
  {
    if cmds == [] then 0 else
      StepKeeps(s, cmds[0]);
      var (next, out) := Apply(s, cmds[0]);
      (if IsAdvanceOf(cmds[0], o) && out == Done then 1 else 0) + AcceptedAdvances(next, cmds[1..], o)
  }

  lemma LaterLowersRanks(s: Store, t: Store, o: Id)
    requires Later(s, t) && o in s.orders
    ensures o in t.orders && Sums.SumOf(Ranks(t.orders[o].slices)) <= Sums.SumOf(Ranks(s.orders[o].slices))
  {
    hide SliceRank;
    assert OrderLater(s.orders[o], t.orders[o]);
    var before, after := Ranks(s.orders[o].slices), Ranks(t.orders[o].slices);
    forall v | v in before ensures after[v] <= before[v] {
      assert SliceLater(s.orders[o].slices[v], t.orders[o].slices[v]);
    }
    Sums.Monotone(after, before);
  }

  lemma AdvanceLowersRanks(s: Store, vendor: Id, o: Id, user: Id, to: SliceStatus, courier: string, tracking: string)
    requires OrderTablesOk(s) && Advance(s, vendor, o, user, to, courier, tracking).1 == Done
    ensures var t := Advance(s, vendor, o, user, to, courier, tracking).0;
      o in s.orders && o in t.orders && Sums.SumOf(Ranks(t.orders[o].slices)) < Sums.SumOf(Ranks(s.orders[o].slices))
  {
    hide OrderTablesOk, Advance, SliceRank, OrdersLater;
    AdvanceStep(s, vendor, o, user, to, courier, tracking);
    Sums.Update(Ranks(s.orders[o].slices), vendor, SliceRank(to));
  }

  /** A step never raises the ranks of an order, and an accepted advance lowers them. */
  lemma RanksFall(s: Store, cmd: Command, o: Id)
    requires Inv(s) && o in s.orders
    ensures var (t, out) := Apply(s, cmd);
      && o in t.orders
      && Sums.SumOf(Ranks(t.orders[o].slices)) <= Sums.SumOf(Ranks(s.orders[o].slices))
      && (IsAdvanceOf(cmd, o) && out == Done ==>
            Sums.SumOf(Ranks(t.orders[o].slices)) < Sums.SumOf(Ranks(s.orders[o].slices)))
  {
    hide AddLine, EditLine, PlaceOrder, Advance, IssueRefund, CancelOrder;
    hide OrdersOk, Checkouts, OneOpenCart, CartsOk, Linked, Below, Later, Ranks;
    StepKeeps(s, cmd);
    LaterLowersRanks(s, Apply(s, cmd).0, o);
    if IsAdvanceOf(cmd, o) && Apply(s, cmd).1 == Done {
      AdvanceLowersRanks(s, cmd.vendor, o, cmd.user, cmd.to, cmd.courier, cmd.tracking);
    }
  }

  lemma {:induction false} AdvancesAreRanks(s: Store, cmds: seq<Command>, o: Id)
    requires Inv(s) && o in s.orders
    ensures AcceptedAdvances(s, cmds, o) + Sums.SumOf(Ranks(Run(s, cmds).orders[o].slices))
         <= Sums.SumOf(Ranks(s.orders[o].slices))
    decreases |cmds|
  {
    if cmds != [] {
      StepKeeps(s, cmds[0]);
      RanksFall(s, cmds[0], o);
      AdvancesAreRanks(Apply(s, cmds[0]).0, cmds[1..], o);
    }
  }

  lemma RanksBounded(slices: map<Id, Slice>)
    ensures 0 <= Sums.SumOf(Ranks(slices)) <= 6 * |slices|
  {
    var ranks := Ranks(slices);
    var zeros := map v | v in slices :: 0;
    Sums.Zeros(zeros);
    Sums.Monotone(zeros, ranks);
    Sums.Bounded(ranks, 6);
    assert ranks.Keys == slices.Keys;
    assert |ranks| == |ranks.Keys| == |slices.Keys| == |slices|;
  }

  /** An order with n slices takes at most 6n advances, over any run. */
  lemma AdvancesAreBounded(s: Store, cmds: seq<Command>, o: Id)
    requires Inv(s) && o in s.orders
    ensures AcceptedAdvances(s, cmds, o) <= 6 * |s.orders[o].slices|
  {
    hide Inv, AcceptedAdvances, Ranks;
    AdvancesAreRanks(s, cmds, o);
    RanksBounded(Run(s, cmds).orders[o].slices);
    RanksBounded(s.orders[o].slices);
  }

  predicate IsRefundOf(cmd: Command, o: Id, v: Id) { cmd.DoIssueRefund? && cmd.order == o && cmd.vendor == v }

  ghost function RefundsIssued(s: Store, cmds: seq<Command>, o: Id, v: Id): nat
    requires Inv(s)
    decreases |cmds|
  {
    if cmds == [] then 0 else
      StepKeeps(s, cmds[0]);
      var (next, out) := Apply(s, cmds[0]);
      (if IsRefundOf(cmds[0], o, v) && out == Done then 1 else 0) + RefundsIssued(next, cmds[1..], o, v)
  }

  ghost predicate IsRefunded(s: Store, o: Id, v: Id) {
    o in s.orders && v in s.orders[o].slices && s.orders[o].slices[v].refund == Refunded
  }

  lemma RefundedStays(s: Store, t: Store, o: Id, v: Id)
    requires Later(s, t) && IsRefunded(s, o, v)
    ensures IsRefunded(t, o, v)
  {
    assert OrderLater(s.orders[o], t.orders[o]);
    assert SliceLater(s.orders[o].slices[v], t.orders[o].slices[v]);
  }

  /** A slice's refund is issued at most once, and never again once it has been. */
  lemma {:induction false} RefundIssuedOnce(s: Store, cmds: seq<Command>, o: Id, v: Id)
    requires Inv(s)
    ensures RefundsIssued(s, cmds, o, v) <= if IsRefunded(s, o, v) then 0 else 1
    decreases |cmds|
  {
    hide Inv, Later, AddLine, EditLine, PlaceOrder, Advance, CancelOrder;
    if cmds != [] {
      InvLinked(s);
      StepKeeps(s, cmds[0]);
      var t := Apply(s, cmds[0]).0;
      if IsRefunded(s, o, v) {
        RefundedStays(s, t, o, v);
      }
      RefundIssuedOnce(t, cmds[1..], o, v);
    }
  }

  lemma InvLinked(s: Store)
    requires Inv(s)
    ensures Linked(s)
  {
  }

  /** The whole protocol of one slice, over any run. */
  lemma SliceProtocol(s: Store, cmds: seq<Command>, o: Id, v: Id)
    requires Inv(s) && o in s.orders && v in s.orders[o].slices
    ensures var t := Run(s, cmds);
      var before, after := s.orders[o].slices[v], t.orders[o].slices[v];
      && SliceOk(after, VendorTotal(Sellers(s), s.orders[o].lines, v))
      && (after.status == Cancelled ==> before.status == Placed || before.status == Cancelled)
      && (before.status == Cancelled ==> after.refundAmount == before.refundAmount)
  {
    var t := Run(s, cmds);
    assert OrderLater(s.orders[o], t.orders[o]);
    assert SliceLater(s.orders[o].slices[v], t.orders[o].slices[v]);
    assert OrderOk(Sellers(s), s.orders[o]);
    assert SliceOk(s.orders[o].slices[v], VendorTotal(Sellers(s), s.orders[o].lines, v));
    assert OrderOk(Sellers(t), t.orders[o]);
    VendorTotalFrame(Sellers(s), Sellers(t), s.orders[o].lines, v);
  }
}
