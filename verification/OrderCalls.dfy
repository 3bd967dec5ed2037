/** What the caller of a commerce operation gets, told from the rows before and after it, and where every
    order comes from. */
module OrderCalls {
  import opened Errors
  import opened Orders
  import opened OrderLaws
  import Text

  // ---------- checkout

  /** The kinds of product that are sent to an address or take place at one. */
  const AT_ADDRESS := {ShipPhysical, DispatchService, BookAppointment}

  predicate FilledCart(s: Store, tenant: Id, c: Id) {
    c in s.carts && s.carts[c].tenant == tenant && s.carts[c].status == Open && s.carts[c].lines != []
  }

  /** The product on offer, as it is now. */
  ghost predicate OfOffering(s: Store, offering: Id, product: Product) {
    && offering in s.offerings && s.offerings[offering].product in s.products
    && s.products[s.offerings[offering].product] == product
  }

  ghost predicate GoesOut(s: Store, c: Id) {
    c in s.carts && exists i, p | 0 <= i < |s.carts[c].lines| && OfOffering(s, s.carts[c].lines[i].offering, p) ::
      p.kind in AT_ADDRESS
  }

  /** The tenant may check out: for a cart that goes out the address may not be left open. */
  ghost predicate Ready(s: Store, tenant: Id, address: Option<Id>) {
    exists c :: FilledCart(s, tenant, c) && (address.None? ==> !GoesOut(s, c))
  }

  predicate IsAddress(s: Store, tenant: Id, address: Option<Id>) {
    address.None? || (address.value in s.addresses && s.addresses[address.value] == Address(tenant, true))
  }

  predicate IsMethod(payment: string) {
    payment == "upi" || payment == "card" || payment == "netbanking"
  }

  /** The order line copies the cart line, at the name, kind and price of this moment. */
  ghost predicate Buys(s: Store, l: CartLine, x: OrderLine) {
    && l.offering in s.offerings && s.offerings[l.offering].product in s.products
    && var p := s.products[s.offerings[l.offering].product];
       x.offering == l.offering && x.quantity == l.quantity && x.unitPrice == s.offerings[l.offering].price
       && x.productName == p.name && x.kind == p.kind
  }

  ghost predicate BuysAll(s: Store, lines: seq<CartLine>, bought: seq<OrderLine>) {
    |bought| == |lines| && forall i | 0 <= i < |lines| :: Buys(s, lines[i], bought[i])
  }

  ghost predicate IsVendor(s: Store, lines: seq<OrderLine>, v: Id) {
    exists i, p | 0 <= i < |lines| && OfOffering(s, lines[i].offering, p) :: p.vendor == v
  }

  /** What a checkout asks for, apart from the permission, is in order. */
  ghost predicate MayCheckOut(s: Store, tenant: Id, address: Option<Id>, payment: string) {
    IsMethod(Text.Lower(Text.Strip(payment))) && Ready(s, tenant, address) && IsAddress(s, tenant, address)
  }

  lemma TheCart(s: Store, tenant: Id, c: Id)
    requires Inv(s)
    ensures FilledCart(s, tenant, c) ==> OpenCart(s.carts, tenant) == Some(c)
    ensures OpenCart(s.carts, tenant).Some? && s.carts[OpenCart(s.carts, tenant).value].lines != [] ==>
              FilledCart(s, tenant, OpenCart(s.carts, tenant).value)
  {
    hide Linked, Below, CartsOk, Checkouts, OrdersOk;
    if FilledCart(s, tenant, c) {
      assert IsOpen(s.carts, tenant, c);
    }
  }

  lemma GoesOutExactly(s: Store, c: Id)
    requires Linked(s) && c in s.carts
    ensures LinksTo(s.offerings.Keys, s.carts[c].lines)
    ensures var bought := Snapshots(s, s.carts[c].lines);
      && BuysAll(s, s.carts[c].lines, bought)
      && (GoesOut(s, c) <==> exists i | 0 <= i < |bought| :: NeedsAddress(bought[i].kind))
  {
    var lines := s.carts[c].lines;
    assert LinksTo(s.offerings.Keys, lines);
    var bought := Snapshots(s, lines);
    assert forall i | 0 <= i < |lines| :: bought[i] == Snapshot(s, lines[i]);
    if GoesOut(s, c) {
      var i, p :| 0 <= i < |lines| && OfOffering(s, lines[i].offering, p) && p.kind in AT_ADDRESS;
      assert NeedsAddress(bought[i].kind);
    }
    if i :| 0 <= i < |bought| && NeedsAddress(bought[i].kind) {
      assert OfOffering(s, lines[i].offering, s.products[s.offerings[lines[i].offering].product]);
    }
  }

  /** Exactly when a checkout is accepted, and what each refusal says; refused, it changes nothing. */
  lemma CheckoutExactly(s: Store, tenant: Id, permitted: bool, address: Option<Id>, payment: string)
    requires Inv(s)
    ensures var (t, out) := PlaceOrder(s, tenant, permitted, address, payment);
      var method_ := IsMethod(Text.Lower(Text.Strip(payment)));
      && (out == Done <==> permitted && MayCheckOut(s, tenant, address, payment))
      && (out == Refused(Forbidden) <==> !permitted)
      && (out == Refused(Validation) <==>
          permitted && (!method_ || (address.None? && exists c :: FilledCart(s, tenant, c) && GoesOut(s, c))))
      && (out == Refused(Conflict) <==> permitted && method_ && forall c :: !FilledCart(s, tenant, c))
      && (out == Refused(NotFound) <==>
          permitted && method_ && Ready(s, tenant, address) && !IsAddress(s, tenant, address))
      && (out != Done ==> t == s)
  {
    IsLinked(s);
    CartsFilled(s, tenant);
    CheckoutOutcome(s, tenant, permitted, address, payment);
    hide Linked, FilledCart, GoesOut, IsAddress, IsMethod, Inv, PlaceOrder, Text.Strip, Text.Lower;
    var cart := OpenCart(s.carts, tenant);
    if cart.Some? && FilledCart(s, tenant, cart.value) {
      assert Ready(s, tenant, address) <==> (address.None? ==> !GoesOut(s, cart.value));
    }
  }

  lemma CheckoutOutcome(s: Store, tenant: Id, permitted: bool, address: Option<Id>, payment: string)
    requires Linked(s)
    ensures var (t, out) := PlaceOrder(s, tenant, permitted, address, payment);
      var cart := OpenCart(s.carts, tenant);
      && (out != Done ==> t == s)
      && out == if !permitted then Refused(Forbidden)
                else if !IsMethod(Text.Lower(Text.Strip(payment))) then Refused(Validation)
                else if cart.None? || s.carts[cart.value].lines == [] then Refused(Conflict)
                else if address.None? && GoesOut(s, cart.value) then Refused(Validation)
                else if !IsAddress(s, tenant, address) then Refused(NotFound)
                else Done
  {
    hide Text.Strip, Text.Lower, GoesOut, NeedsAddress, SellersOf, VendorsOf, NewSlices, Snapshots, BuysAll;
    if OpenCart(s.carts, tenant).Some? {
      GoesOutExactly(s, OpenCart(s.carts, tenant).value);
    }
    hide Linked;
  }

  /** The tenant's filled cart is the open one, if it has lines. */
  lemma CartsFilled(s: Store, tenant: Id)
    requires Inv(s)
    ensures forall c: Id :: FilledCart(s, tenant, c) <==>
        OpenCart(s.carts, tenant) == Some(c) && s.carts[c].lines != []
  {
    forall c: Id ensures FilledCart(s, tenant, c) <==>
        OpenCart(s.carts, tenant) == Some(c) && s.carts[c].lines != [] {
      TheCart(s, tenant, c);
    }
  }

  /** An accepted checkout adds one order, with the tenant, address and payment method given, and closes
      the cart that it copies; every vendor behind a line has a new slice, and nothing else changes. */
  lemma CheckoutMakes(s: Store, tenant: Id, permitted: bool, address: Option<Id>, payment: string)
    requires Inv(s) && PlaceOrder(s, tenant, permitted, address, payment).1 == Done
    ensures var t := PlaceOrder(s, tenant, permitted, address, payment).0;
      && s.nextId !in s.orders && s.nextId in t.orders
      && var o := t.orders[s.nextId];
         && o.tenant == tenant && o.address == address && o.payment == Text.Lower(Text.Strip(payment))
         && FilledCart(s, tenant, o.cart) && BuysAll(s, s.carts[o.cart].lines, o.lines)
         && o.status == OrderPlaced
         && (forall v :: v in o.slices <==> IsVendor(s, o.lines, v))
         && (forall v | v in o.slices :: o.slices[v] == Slice(Placed, "", "", NoRefund, None))
         && t == s.(nextId := s.nextId + 1, orders := s.orders[s.nextId := o],
                    carts := s.carts[o.cart := Cart(tenant, CheckedOut, s.carts[o.cart].lines)])
  {
    FreshOrder(s);
    IsLinked(s);
    CheckoutRows(s, tenant, permitted, address, payment);
    hide *;
    var o := PlaceOrder(s, tenant, permitted, address, payment).0.orders[s.nextId];
    VendorRows(s, o.lines);
  }

  lemma CheckoutRows(s: Store, tenant: Id, permitted: bool, address: Option<Id>, payment: string)
    requires Linked(s) && PlaceOrder(s, tenant, permitted, address, payment).1 == Done
    ensures var t := PlaceOrder(s, tenant, permitted, address, payment).0;
      && s.nextId in t.orders
      && var o := t.orders[s.nextId];
         && o.tenant == tenant && o.address == address && o.payment == Text.Lower(Text.Strip(payment))
         && FilledCart(s, tenant, o.cart) && BuysAll(s, s.carts[o.cart].lines, o.lines)
         && o.status == OrderPlaced && o.slices == NewSlices(VendorsOf(Sellers(s), o.lines))
         && t == s.(nextId := s.nextId + 1, orders := s.orders[s.nextId := o],
                    carts := s.carts[o.cart := Cart(tenant, CheckedOut, s.carts[o.cart].lines)])
  {
    var c := OpenCart(s.carts, tenant).value;
    GoesOutExactly(s, c);
    hide Text.Strip, Text.Lower, NeedsAddress, SellersOf, VendorsOf, ActiveAddress, NewSlices, Snapshots, Linked,
         BuysAll, GoesOut;
  }

  lemma VendorRows(s: Store, lines: seq<OrderLine>)
    ensures forall v :: v in VendorsOf(Sellers(s), lines) <==> IsVendor(s, lines, v)
    ensures NewSlices(VendorsOf(Sellers(s), lines)).Keys == VendorsOf(Sellers(s), lines)
    ensures forall v | v in NewSlices(VendorsOf(Sellers(s), lines)) ::
      NewSlices(VendorsOf(Sellers(s), lines))[v] == Slice(Placed, "", "", NoRefund, None)
  {
    forall v ensures v in VendorsOf(Sellers(s), lines) <==> IsVendor(s, lines, v) {
      if v in VendorsOf(Sellers(s), lines) {
        var i :| 0 <= i < |lines| && lines[i].offering in Sellers(s) && Sellers(s)[lines[i].offering] == v;
        assert OfOffering(s, lines[i].offering, s.products[s.offerings[lines[i].offering].product]);
      }
      if IsVendor(s, lines, v) {
        var i, p :| 0 <= i < |lines| && OfOffering(s, lines[i].offering, p) && p.vendor == v;
        assert Sellers(s)[lines[i].offering] == v;
      }
    }
  }

  // ---------- every order of a run

  /** The call is a checkout that this order comes from. */
  ghost predicate MadeBy(s: Store, cmd: Command, o: Order) {
    && cmd.DoPlaceOrder? && cmd.permitted && MayCheckOut(s, cmd.tenant, cmd.address, cmd.payment)
    && o.tenant == cmd.tenant && o.address == cmd.address && o.payment == Text.Lower(Text.Strip(cmd.payment))
    && FilledCart(s, o.tenant, o.cart) && BuysAll(s, s.carts[o.cart].lines, o.lines)
  }

  lemma Tables(s: Store)
    requires Inv(s)
    ensures Linked(s) && OrderTablesOk(s) && CartTablesOk(s.nextId, s.offerings.Keys, s.carts, s.orders)
  {
  }

  /** Only a checkout adds an order. */
  lemma NewOrder(s: Store, cmd: Command, o: Id)
    requires Inv(s) && o !in s.orders && o in Apply(s, cmd).0.orders
    ensures MadeBy(s, cmd, Apply(s, cmd).0.orders[o])
  {
    Tables(s);
    hide Inv, AddLine, EditLine, PlaceOrder, Advance, IssueRefund, CancelOrder, MayCheckOut, BuysAll, Text.Strip,
         Text.Lower, OrderTablesOk, CartTablesOk, OrdersOk;
    match cmd
    case DoAddLine(tenant, user, offering, quantity) => AddLineStep(s, tenant, user, offering, quantity);
    case DoEditLine(tenant, user, line, quantity) => EditLineStep(s, tenant, user, line, quantity);
    case DoPlaceOrder(tenant, permitted, address, payment) =>
      CheckoutExactly(s, tenant, permitted, address, payment);
      if PlaceOrder(s, tenant, permitted, address, payment).1 == Done {
        CheckoutMakes(s, tenant, permitted, address, payment);
      }
    case DoAdvance(vendor, order, user, to, courier, tracking) =>
      AdvanceStep(s, vendor, order, user, to, courier, tracking);
    case DoIssueRefund(vendor, order, user) => IssueRefundStep(s, vendor, order, user);
    case DoCancelOrder(tenant, order, user) => CancelOrderStep(s, tenant, order, user);
    case _ =>
  }

  lemma StillMadeBy(s: Store, cmd: Command, before: Order, after: Order)
    requires MadeBy(s, cmd, before) && OrderLater(before, after)
    ensures MadeBy(s, cmd, after)
  {
    hide MayCheckOut, BuysAll, Text.Strip, Text.Lower, FilledCart, SlicesLater, OrderRank;
  }

  lemma RunPrefix(s: Store, cmds: seq<Command>, m: nat)
    requires Inv(s) && m < |cmds|
    ensures Linked(s) && Inv(Apply(s, cmds[0]).0)
    ensures Run(s, cmds[..m + 1]) == Run(Apply(s, cmds[0]).0, cmds[1..][..m])
  {
    IsLinked(s);
    StepKeeps(s, cmds[0]);
    hide Inv, Apply;
    assert cmds[..m + 1][1..] == cmds[1..][..m] && cmds[..m + 1][0] == cmds[0];
  }

  lemma {:induction false} OrderMade(s: Store, cmds: seq<Command>, o: Id) returns (n: nat)
    requires Inv(s) && o !in s.orders && o in Run(s, cmds).orders
    ensures n < |cmds| && MadeBy(Run(s, cmds[..n]), cmds[n], Run(s, cmds).orders[o])
    decreases |cmds|
  {
    IsLinked(s);
    StepKeeps(s, cmds[0]);
    var next := Apply(s, cmds[0]).0;
    if o in next.orders {
      NewOrder(s, cmds[0], o);
      OrderStays(next, cmds[1..], o);
      hide Inv, Apply, MadeBy, OrderLater;
      assert cmds[..0] == [];
      StillMadeBy(s, cmds[0], next.orders[o], Run(s, cmds).orders[o]);
      n := 0;
    } else {
      hide Inv, Apply, MadeBy;
      var m := OrderMade(next, cmds[1..], o);
      n := m + 1;
      hide Run;
      RunPrefix(s, cmds, m);
    }
  }

  lemma OrderStays(s: Store, cmds: seq<Command>, o: Id)
    requires Inv(s) && o in s.orders
    ensures o in Run(s, cmds).orders && OrderLater(s.orders[o], Run(s, cmds).orders[o])
  {
    hide Run, Inv, OrderLater, CartsLater;
  }

  predicate SentSomewhere(o: Order) {
    exists i | 0 <= i < |o.lines| :: o.lines[i].kind in AT_ADDRESS
  }

  /** Every order of every run comes from one of its checkouts: with the permission, the tenant's own cart
      as it was then, the payment method and the address given there, which was an active one of the tenant.
      So whatever is sent to an address or takes place at one has an address. */
  lemma EveryOrder(cmds: seq<Command>, o: Id)
    ensures Inv(START)
    ensures o in Run(START, cmds).orders ==>
              var order := Run(START, cmds).orders[o];
              && (exists n: nat | n < |cmds| :: MadeBy(Run(START, cmds[..n]), cmds[n], order))
              && IsMethod(order.payment)
              && (SentSomewhere(order) ==> order.address.Some?)
  {
    StartOk();
    hide Run, Inv, MadeBy, IsMethod;
    if o in Run(START, cmds).orders {
      var n := OrderMade(START, cmds, o);
      RunKeeps(START, cmds[..n]);
      MadeWhole(Run(START, cmds[..n]), cmds[n], Run(START, cmds).orders[o]);
    }
  }

  lemma RunKeeps(s: Store, cmds: seq<Command>)
    requires Inv(s)
    ensures Inv(Run(s, cmds))
  {
  }

  lemma MadeWhole(s: Store, cmd: Command, o: Order)
    requires Inv(s) && MadeBy(s, cmd, o)
    ensures IsMethod(o.payment)
    ensures SentSomewhere(o) ==> o.address.Some?
  {
    CartsFilled(s, o.tenant);
    hide Text.Strip, Text.Lower, Inv, FilledCart, GoesOut, BuysAll, IsMethod;
    if SentSomewhere(o) {
      LinesGoOut(s, o);
    }
  }

  lemma LinesGoOut(s: Store, o: Order)
    requires o.cart in s.carts && BuysAll(s, s.carts[o.cart].lines, o.lines) && SentSomewhere(o)
    ensures GoesOut(s, o.cart)
  {
    var i :| 0 <= i < |o.lines| && o.lines[i].kind in AT_ADDRESS;
    var lines := s.carts[o.cart].lines;
    assert Buys(s, lines[i], o.lines[i]);
    assert OfOffering(s, lines[i].offering, s.products[s.offerings[lines[i].offering].product]);
  }

  // ---------- what is in a cart

  predicate InCart(carts: map<Id, Cart>, c: Id, tenant: Id, l: CartLine) {
    IsOpen(carts, tenant, c) && l in carts[c].lines
  }

  /** The tenant's open cart has so many of the offering. */
  ghost predicate Wants(s: Store, tenant: Id, offering: Id, quantity: int) {
    exists c, l :: InCart(s.carts, c, tenant, l) && l.offering == offering && l.quantity == quantity
  }

  predicate IsMemberOf(s: Store, tenant: Id, user: Id) {
    tenant in s.tenants && (tenant, user) in s.members
  }

  /** The offering may be put into a cart: it is on offer, and what it sells is not installed. */
  predicate ForCart(s: Store, offering: Id) {
    && offering in s.offerings && s.offerings[offering].published
    && s.offerings[offering].product in s.products
    && var p := s.products[s.offerings[offering].product];
       p.published && p.kind != ProvisionSoftware && p.kind != ProvisionCloud
  }

  lemma OpenIs(s: Store, tenant: Id)
    requires Inv(s)
    ensures forall c: Id :: IsOpen(s.carts, tenant, c) <==> OpenCart(s.carts, tenant) == Some(c)
  {
    hide Linked, Below, CartsOk, Checkouts, OrdersOk;
  }

  /** Two stores' carts differ in one open cart of the tenant at most. */
  lemma OneCartWants(s: Store, t: Store, c: Id, tenant: Id, other: Id, f: Id, q: int)
    requires c in t.carts && t.carts == s.carts[c := t.carts[c]] && t.carts[c].tenant == tenant
    requires c in s.carts ==> s.carts[c].tenant == tenant
    requires other != tenant
    ensures Wants(t, other, f, q) <==> Wants(s, other, f, q)
  {
    assert forall k: Id, l: CartLine :: InCart(s.carts, k, other, l) ==> k != c && t.carts[k] == s.carts[k];
    assert forall k: Id, l: CartLine :: InCart(t.carts, k, other, l) ==> k != c && t.carts[k] == s.carts[k];
    if Wants(s, other, f, q) {
      var k, l :| InCart(s.carts, k, other, l) && l.offering == f && l.quantity == q;
      assert InCart(t.carts, k, other, l);
    }
    if Wants(t, other, f, q) {
      var k, l :| InCart(t.carts, k, other, l) && l.offering == f && l.quantity == q;
      assert InCart(s.carts, k, other, l);
    }
  }

  /** The open cart's lines say what the tenant wants. */
  lemma WantsLines(s: Store, tenant: Id, c: Id, f: Id, q: int)
    requires OneOpenCart(s.carts) && IsOpen(s.carts, tenant, c)
    ensures Wants(s, tenant, f, q) <==> exists l :: l in s.carts[c].lines && l.offering == f && l.quantity == q
  {
    if l :| l in s.carts[c].lines && l.offering == f && l.quantity == q {
      assert InCart(s.carts, c, tenant, l);
    }
  }

  /** A line is accepted exactly from a member, in a positive quantity of something that may be put into a
      cart and is not in it; then the cart has that quantity of it, and every cart the rest as before. */
  lemma AddLineExactly(s: Store, tenant: Id, user: Id, offering: Id, quantity: int)
    requires Inv(s)
    ensures var (t, out) := AddLine(s, tenant, user, offering, quantity);
      && (out == Done <==> IsMemberOf(s, tenant, user) && quantity >= 1 && ForCart(s, offering)
                           && forall q :: !Wants(s, tenant, offering, q))
      && (out != Done ==> t == s)
      && (out == Done ==> forall o, f, q ::
            Wants(t, o, f, q) <==> if o == tenant && f == offering then q == quantity else Wants(s, o, f, q))
  {
    OpenIs(s, tenant);
    Tables(s);
    AddedOutcome(s, tenant, user, offering, quantity);
    AddLineStep(s, tenant, user, offering, quantity);
    hide Inv, Linked, AddLine, OrderTablesOk, ForCart, IsMemberOf, Wants;
    var (t, out) := AddLine(s, tenant, user, offering, quantity);
    if out == Done {
      forall o, f, q
        ensures Wants(t, o, f, q) <==> if o == tenant && f == offering then q == quantity else Wants(s, o, f, q)
      {
        AddedWants(s, t, tenant, offering, quantity, o, f, q);
      }
    }
  }

  ghost predicate OneLineMore(s: Store, t: Store, tenant: Id, offering: Id, quantity: int) {
    var cart := OpenCart(s.carts, tenant);
    exists c, id ::
      && (if cart.Some? then cart.value == c else c !in s.carts) && c in t.carts
      && t.carts == s.carts[c := t.carts[c]]
      && t.carts[c] == Cart(tenant, Open, (if cart.Some? then s.carts[c].lines else [])
                                          + [CartLine(id, offering, quantity)])
  }

  lemma AddedOutcome(s: Store, tenant: Id, user: Id, offering: Id, quantity: int)
    requires Inv(s)
    ensures var (t, out) := AddLine(s, tenant, user, offering, quantity);
      && (out == Done <==> IsMemberOf(s, tenant, user) && quantity >= 1 && ForCart(s, offering)
                           && forall q :: !Wants(s, tenant, offering, q))
      && (out != Done ==> t == s)
      && (out == Done ==> OneLineMore(s, t, tenant, offering, quantity))
  {
    NotWanted(s, tenant, offering);
    NewCartId(s);
    hide Inv, Wants, HasOffering;
    assert Linked(s) by { IsLinked(s); }
    var (t, out) := AddLine(s, tenant, user, offering, quantity);
    if out == Done {
      var cart := OpenCart(s.carts, tenant);
      var c, id := if cart.Some? then cart.value else s.nextId, if cart.Some? then s.nextId else s.nextId + 1;
      assert t.carts == s.carts[c := t.carts[c]];
      assert t.carts[c] == Cart(tenant, Open, (if cart.Some? then s.carts[c].lines else [])
                                              + [CartLine(id, offering, quantity)]);
    }
  }

  lemma NewCartId(s: Store)
    requires Inv(s)
    ensures s.nextId !in s.carts
  {
  }

  lemma NotWanted(s: Store, tenant: Id, offering: Id)
    requires Inv(s)
    ensures (forall q :: !Wants(s, tenant, offering, q)) <==>
              var cart := OpenCart(s.carts, tenant);
              cart.None? || !HasOffering(s.carts[cart.value].lines, offering)
  {
    OpenIs(s, tenant);
    var cart := OpenCart(s.carts, tenant);
    if cart.Some? && HasOffering(s.carts[cart.value].lines, offering) {
      var i :| 0 <= i < |s.carts[cart.value].lines| && s.carts[cart.value].lines[i].offering == offering;
      var l := s.carts[cart.value].lines[i];
      assert InCart(s.carts, cart.value, tenant, l);
      assert Wants(s, tenant, offering, l.quantity);
    }
  }

  lemma AddedWants(s: Store, t: Store, tenant: Id, offering: Id, quantity: int, o: Id, f: Id, q: int)
    requires OneLineMore(s, t, tenant, offering, quantity) && OneOpenCart(s.carts) && OneOpenCart(t.carts)
    requires forall k :: !Wants(s, tenant, offering, k)
    ensures Wants(t, o, f, q) <==> if o == tenant && f == offering then q == quantity else Wants(s, o, f, q)
  {
    var cart := OpenCart(s.carts, tenant);
    var c, id :|
      && (if cart.Some? then cart.value == c else c !in s.carts) && c in t.carts
      && t.carts == s.carts[c := t.carts[c]]
      && t.carts[c] == Cart(tenant, Open, (if cart.Some? then s.carts[c].lines else [])
                                          + [CartLine(id, offering, quantity)]);
    hide Wants;
    if o != tenant {
      OneCartWants(s, t, c, tenant, o, f, q);
    } else {
      WantsLines(t, tenant, c, f, q);
      var line := CartLine(id, offering, quantity);
      assert line in t.carts[c].lines;
      if cart.Some? {
        WantsLines(s, tenant, c, f, q);
        if f == offering {
          assert !Wants(s, tenant, offering, q);
        }
      } else {
        assert !Wants(s, tenant, f, q);
      }
    }
  }

  /** A line is edited exactly by a member whose tenant's open cart has it, to a positive quantity or away;
      then the cart has that quantity of its offering, or none, and every cart the rest as before. */
  lemma EditLineExactly(s: Store, tenant: Id, user: Id, line: Id, quantity: Option<int>)
    requires Inv(s)
    ensures var (t, out) := EditLine(s, tenant, user, line, quantity);
      && (out == Done <==> IsMemberOf(s, tenant, user) && (quantity.Some? ==> quantity.value >= 1)
                           && exists c, l :: InCart(s.carts, c, tenant, l) && l.id == line)
      && (out != Done ==> t == s)
      && forall c, l | out == Done && InCart(s.carts, c, tenant, l) && l.id == line :: forall o, f, q ::
          Wants(t, o, f, q) <==> if o == tenant && f == l.offering then quantity == Some(q) else Wants(s, o, f, q)
  {
    EditedOutcome(s, tenant, user, line, quantity);
    hide Inv, EditLine, IsMemberOf, Wants, InCart;
    forall c, l, o, f, q | EditLine(s, tenant, user, line, quantity).1 == Done && InCart(s.carts, c, tenant, l)
                           && l.id == line
      ensures Wants(EditLine(s, tenant, user, line, quantity).0, o, f, q) <==>
              if o == tenant && f == l.offering then quantity == Some(q) else Wants(s, o, f, q)
    {
      EditedCall(s, tenant, user, quantity, c, l, o, f, q);
    }
  }

  lemma EditedCall(s: Store, tenant: Id, user: Id, quantity: Option<int>, c: Id, l: CartLine, o: Id, f: Id, q: int)
    requires Inv(s) && InCart(s.carts, c, tenant, l) && EditLine(s, tenant, user, l.id, quantity).1 == Done
    ensures Wants(EditLine(s, tenant, user, l.id, quantity).0, o, f, q) <==>
            if o == tenant && f == l.offering then quantity == Some(q) else Wants(s, o, f, q)
  {
    EditedOutcome(s, tenant, user, l.id, quantity);
    Tables(s);
    EditLineStep(s, tenant, user, l.id, quantity);
    hide Inv, EditLine, OrderTablesOk, Wants, EditedLines, LinesLinked, Checkouts;
    EditedWants(s, EditLine(s, tenant, user, l.id, quantity).0, tenant, c, l, quantity, o, f, q);
  }

  lemma EditedOutcome(s: Store, tenant: Id, user: Id, line: Id, quantity: Option<int>)
    requires Inv(s)
    ensures var (t, out) := EditLine(s, tenant, user, line, quantity);
      && (out == Done <==> IsMemberOf(s, tenant, user) && (quantity.Some? ==> quantity.value >= 1)
                           && exists c, l :: InCart(s.carts, c, tenant, l) && l.id == line)
      && (out != Done ==> t == s)
      && forall c | out == Done && IsOpen(s.carts, tenant, c) ::
          && c in t.carts && t.carts == s.carts[c := t.carts[c]]
          && t.carts[c] == s.carts[c].(lines := EditedLines(s.carts[c].lines, line, quantity))
  {
    OpenIs(s, tenant);
    LineInCart(s, tenant, line);
    hide Inv, EditedLines, HasLine, IsOpen, InCart;
  }

  lemma LineInCart(s: Store, tenant: Id, line: Id)
    requires Inv(s)
    ensures (exists c, l :: InCart(s.carts, c, tenant, l) && l.id == line) <==>
            OpenCart(s.carts, tenant).Some? && HasLine(s.carts[OpenCart(s.carts, tenant).value].lines, line)
  {
    OpenIs(s, tenant);
    hide Inv, HasLine, IsOpen;
    var cart := OpenCart(s.carts, tenant);
    if cart.Some? {
      LineThere(s.carts[cart.value].lines, line);
      if l :| l in s.carts[cart.value].lines && l.id == line {
        assert InCart(s.carts, cart.value, tenant, l);
      }
    }
  }

  lemma LineThere(lines: seq<CartLine>, line: Id)
    ensures HasLine(lines, line) <==> exists l :: l in lines && l.id == line
  {
    if HasLine(lines, line) {
      var i :| 0 <= i < |lines| && lines[i].id == line;
      assert lines[i] in lines;
    }
  }

  lemma EditedWants(s: Store, t: Store, tenant: Id, c: Id, l: CartLine, quantity: Option<int>, o: Id, f: Id, q: int)
    requires OneOpenCart(s.carts) && OneOpenCart(t.carts) && InCart(s.carts, c, tenant, l) && CartOk(s.carts[c].lines)
    requires c in t.carts && t.carts == s.carts[c := t.carts[c]]
    requires t.carts[c] == s.carts[c].(lines := EditedLines(s.carts[c].lines, l.id, quantity))
    ensures Wants(t, o, f, q) <==> if o == tenant && f == l.offering then quantity == Some(q) else Wants(s, o, f, q)
  {
    hide Wants, OneOpenCart, EditedLines;
    if o != tenant {
      OneCartWants(s, t, c, tenant, o, f, q);
    } else {
      WantsLines(t, tenant, c, f, q);
      WantsLines(s, tenant, c, f, q);
      EditedHas(s.carts[c].lines, l, quantity, f, q);
    }
  }

  lemma EditedHas(lines: seq<CartLine>, l: CartLine, quantity: Option<int>, f: Id, q: int)
    requires CartOk(lines) && l in lines
    ensures (exists x :: x in EditedLines(lines, l.id, quantity) && x.offering == f && x.quantity == q) <==>
            if f == l.offering then
              quantity == Some(q) else exists x :: x in lines && x.offering == f && x.quantity == q
  {
    var edited := EditedLines(lines, l.id, quantity);
    var k :| 0 <= k < |lines| && lines[k] == l;
    if quantity.Some? {
      assert edited[k] == l.(quantity := quantity.value);
      forall i | 0 <= i < |lines| && i != k ensures edited[i] == lines[i] && lines[i].offering != l.offering {
      }
      forall x | x in lines && x.offering != l.offering ensures x in edited {
        var i :| 0 <= i < |lines| && lines[i] == x;
        assert edited[i] == x;
      }
    } else {
      forall x | x in lines ensures x in edited <==> x.offering != l.offering {
        var i :| 0 <= i < |lines| && lines[i] == x;
      }
    }
  }

  /** A checkout orders exactly what the tenant's cart has, and leaves the tenant wanting nothing. */
  lemma CheckoutBuys(s: Store, tenant: Id, permitted: bool, address: Option<Id>, payment: string)
    requires Inv(s) && PlaceOrder(s, tenant, permitted, address, payment).1 == Done
    ensures var t := PlaceOrder(s, tenant, permitted, address, payment).0;
      && s.nextId in t.orders
      && (forall f, q :: Wants(s, tenant, f, q) <==>
            exists x :: x in t.orders[s.nextId].lines && x.offering == f && x.quantity == q)
      && (forall f, q :: !Wants(t, tenant, f, q))
      && (forall o, f, q | o != tenant :: Wants(t, o, f, q) <==> Wants(s, o, f, q))
  {
    CheckoutMakes(s, tenant, permitted, address, payment);
    CheckoutClosesCart(s, tenant, permitted, address, payment);
    OpenOnce(s);
    hide *;
    var t := PlaceOrder(s, tenant, permitted, address, payment).0;
    var o := t.orders[s.nextId];
    CartBought(s, tenant, o);
    forall f, q ensures !Wants(t, tenant, f, q) {
      NoCartNoWants(t, tenant, f, q);
    }
    forall other, f, q | other != tenant ensures Wants(t, other, f, q) <==> Wants(s, other, f, q) {
      ClosedWants(s, t, tenant, o.cart, other, f, q);
    }
  }

  lemma OpenOnce(s: Store)
    requires Inv(s)
    ensures OneOpenCart(s.carts)
  {
  }

  lemma CartBought(s: Store, tenant: Id, o: Order)
    requires OneOpenCart(s.carts) && FilledCart(s, tenant, o.cart) && BuysAll(s, s.carts[o.cart].lines, o.lines)
    ensures forall f, q :: Wants(s, tenant, f, q) <==>
              exists x :: x in o.lines && x.offering == f && x.quantity == q
  {
    assert IsOpen(s.carts, tenant, o.cart);
    hide BuysAll, Wants, OneOpenCart;
    forall f, q ensures Wants(s, tenant, f, q) <==> exists x :: x in o.lines && x.offering == f && x.quantity == q {
      WantsLines(s, tenant, o.cart, f, q);
      SameAmounts(s, s.carts[o.cart].lines, o.lines, f, q);
    }
  }

  lemma ClosedWants(s: Store, t: Store, tenant: Id, c: Id, other: Id, f: Id, q: int)
    requires FilledCart(s, tenant, c) && t.carts == s.carts[c := Cart(tenant, CheckedOut, s.carts[c].lines)]
    requires other != tenant
    ensures Wants(t, other, f, q) <==> Wants(s, other, f, q)
  {
    hide Wants;
    assert t.carts == s.carts[c := t.carts[c]];
    OneCartWants(s, t, c, tenant, other, f, q);
  }

  lemma NoCartNoWants(t: Store, tenant: Id, f: Id, q: int)
    requires NoOpenCart(t.carts, tenant)
    ensures !Wants(t, tenant, f, q)
  {
  }

  lemma SameAmounts(s: Store, lines: seq<CartLine>, bought: seq<OrderLine>, f: Id, q: int)
    requires BuysAll(s, lines, bought)
    ensures (exists l :: l in lines && l.offering == f && l.quantity == q) <==>
            exists x :: x in bought && x.offering == f && x.quantity == q
  {
    forall i | 0 <= i < |lines|
      ensures bought[i].offering == lines[i].offering && bought[i].quantity == lines[i].quantity
    {
      assert Buys(s, lines[i], bought[i]);
    }
    if l :| l in lines && l.offering == f && l.quantity == q {
      var i :| 0 <= i < |lines| && lines[i] == l;
      assert bought[i] in bought;
    }
    if x :| x in bought && x.offering == f && x.quantity == q {
      var i :| 0 <= i < |bought| && bought[i] == x;
      assert lines[i] in lines;
    }
  }

  // ---------- the route of a slice

  /** The ways that a vendor's part of an order can go. */
  const DELIVERED_ROUTE := [Confirmed, Processing, ReadyToShip, Shipped, Delivered]
  const DELAYED_ROUTE := [Confirmed, Processing, Delayed, ReadyToShip, Shipped, Delivered]
  const CANCELLED_ROUTE := [Cancelled]

  /** The status that the call, if it is accepted, gives to the slice. */
  ghost function GivenBy(s: Store, cmd: Command, o: Id, v: Id): Option<SliceStatus>
    requires Linked(s)
  {
    if Apply(s, cmd).1 != Done then None
    else if cmd.DoAdvance? && cmd.order == o && cmd.vendor == v then Some(cmd.to)
    else if cmd.DoCancelOrder? && cmd.order == o then Some(Cancelled)
    else None
  }

  /** The statuses that the calls of the run have given to the slice, in their order. */
  ghost function Route(s: Store, cmds: seq<Command>, o: Id, v: Id): seq<SliceStatus>
    requires Inv(s)
    decreases |cmds|
  {
    if cmds == [] then [] else
      IsLinked(s);
      StepKeeps(s, cmds[0]);
      var given := GivenBy(s, cmds[0], o, v);
      (if given.Some? then [given.value] else []) + Route(Apply(s, cmds[0]).0, cmds[1..], o, v)
  }

  ghost predicate IsSlice(s: Store, o: Id, v: Id) {
    o in s.orders && v in s.orders[o].slices
  }

  predicate IsOrderCall(cmd: Command) {
    cmd.DoPlaceOrder? || cmd.DoAdvance? || cmd.DoIssueRefund? || cmd.DoCancelOrder?
  }

  /** A call gives a slice a status only along the table, and otherwise leaves its status alone. */
  lemma RouteStep(s: Store, cmd: Command, o: Id, v: Id)
    requires Inv(s) && IsSlice(s, o, v)
    ensures Linked(s) && IsSlice(Apply(s, cmd).0, o, v)
    ensures GivenStatus(s, Apply(s, cmd).0, o, v, GivenBy(s, cmd, o, v))
  {
    hide Inv, Apply, Linked, Successors;
    if IsOrderCall(cmd) {
      OrderCallMoves(s, cmd, o, v);
    } else {
      OrdersStay(s, cmd, o, v);
    }
  }

  lemma OrderCallMoves(s: Store, cmd: Command, o: Id, v: Id)
    requires Inv(s) && IsSlice(s, o, v) && IsOrderCall(cmd)
    ensures Linked(s) && GivenStatus(s, Apply(s, cmd).0, o, v, GivenBy(s, cmd, o, v))
  {
    Tables(s);
    hide Inv, PlaceOrder, Advance, IssueRefund, CancelOrder, OrderTablesOk, CartTablesOk, Linked, GivenStatus;
    if cmd.DoPlaceOrder? {
      CheckoutMovesNone(s, cmd.tenant, cmd.permitted, cmd.address, cmd.payment, o, v);
    } else if cmd.DoIssueRefund? {
      RefundMovesNone(s, cmd.vendor, cmd.order, cmd.user, o, v);
    } else {
      SellerOrBuyerMoves(s, cmd, o, v);
    }
  }

  lemma SellerOrBuyerMoves(s: Store, cmd: Command, o: Id, v: Id)
    requires Linked(s) && OrderTablesOk(s) && IsSlice(s, o, v) && (cmd.DoAdvance? || cmd.DoCancelOrder?)
    ensures GivenStatus(s, Apply(s, cmd).0, o, v, GivenBy(s, cmd, o, v))
  {
    hide Advance, CancelOrder, OrderTablesOk, Linked, GivenStatus;
    match cmd
    case DoAdvance(vendor, order, user, to, courier, tracking) =>
      AdvanceMoves(s, vendor, order, user, to, courier, tracking, o, v);
    case DoCancelOrder(tenant, order, user) => CancelMoves(s, tenant, order, user, o, v);
  }

  lemma OrdersStay(s: Store, cmd: Command, o: Id, v: Id)
    requires Inv(s) && IsSlice(s, o, v) && !IsOrderCall(cmd)
    ensures Linked(s) && GivenStatus(s, Apply(s, cmd).0, o, v, None)
  {
    Tables(s);
    hide Inv, AddLine, EditLine, OrderTablesOk, CartTablesOk, Linked, GivenStatus;
    if cmd.DoAddLine? || cmd.DoEditLine? {
      CartCallStays(s, cmd);
    }
    SameOrders(s, Apply(s, cmd).0, o, v);
  }

  lemma CartCallStays(s: Store, cmd: Command)
    requires Linked(s) && CartTablesOk(s.nextId, s.offerings.Keys, s.carts, s.orders)
    requires cmd.DoAddLine? || cmd.DoEditLine?
    ensures Apply(s, cmd).0.orders == s.orders
  {
    hide AddLine, EditLine, CartTablesOk, Linked, CartsLater;
    if cmd.DoAddLine? {
      AddLineStep(s, cmd.tenant, cmd.user, cmd.offering, cmd.quantity);
    } else {
      EditLineStep(s, cmd.tenant, cmd.user, cmd.line, cmd.newQuantity);
    }
  }

  lemma SameOrders(s: Store, t: Store, o: Id, v: Id)
    requires IsSlice(s, o, v) && (o in t.orders && t.orders[o] == s.orders[o])
    ensures GivenStatus(s, t, o, v, None)
  {
    hide Successors;
  }

  lemma CheckoutMovesNone(s: Store, tenant: Id, permitted: bool, address: Option<Id>, payment: string, o: Id, v: Id)
    requires Inv(s) && IsSlice(s, o, v)
    ensures Linked(s) && GivenStatus(s, PlaceOrder(s, tenant, permitted, address, payment).0, o, v, None)
  {
    CheckoutKeepsOrders(s, tenant, permitted, address, payment);
    hide Inv, PlaceOrder, GivenStatus;
    SameOrders(s, PlaceOrder(s, tenant, permitted, address, payment).0, o, v);
  }

  lemma CheckoutKeepsOrders(s: Store, tenant: Id, permitted: bool, address: Option<Id>, payment: string)
    requires Inv(s)
    ensures Linked(s)
    ensures var t := PlaceOrder(s, tenant, permitted, address, payment).0;
      forall o | o in s.orders :: o in t.orders && t.orders[o] == s.orders[o]
  {
    CheckoutExactly(s, tenant, permitted, address, payment);
    hide *;
    if PlaceOrder(s, tenant, permitted, address, payment).1 == Done {
      CheckoutMakes(s, tenant, permitted, address, payment);
    }
  }

  /** The slice is given a status that may follow its own, if the call says so, and keeps it otherwise. */
  ghost predicate GivenStatus(s: Store, t: Store, o: Id, v: Id, given: Option<SliceStatus>)
    requires IsSlice(s, o, v)
  {
    && IsSlice(t, o, v)
    && var before, after := s.orders[o].slices[v].status, t.orders[o].slices[v].status;
       if given.None? then after == before else after == given.value && after in Successors(before)
  }

  lemma AdvanceMoves(s: Store, vendor: Id, order: Id, user: Id, to: SliceStatus, courier: string, tracking: string,
                     o: Id, v: Id)
    requires OrderTablesOk(s) && IsSlice(s, o, v)
    ensures var (t, out) := Advance(s, vendor, order, user, to, courier, tracking);
      GivenStatus(s, t, o, v, if out == Done && order == o && vendor == v then Some(to) else None)
  {
    AdvanceEffect(s, vendor, order, user, to, courier, tracking);
    hide Advance, OrderTablesOk, Text.Strip, Successors, OrderOk, SellersOf;
    var (t, out) := Advance(s, vendor, order, user, to, courier, tracking);
    if out == Done && o != order {
      assert t.orders[o] == s.orders[o];
    }
  }

  lemma CancelMoves(s: Store, tenant: Id, order: Id, user: Id, o: Id, v: Id)
    requires OrderTablesOk(s) && IsSlice(s, o, v)
    ensures var (t, out) := CancelOrder(s, tenant, order, user);
      GivenStatus(s, t, o, v, if out == Done && order == o then Some(Cancelled) else None)
  {
    CancelExactly(s, tenant, order, user);
    hide CancelOrder, OrderTablesOk, SellersOf, VendorTotal;
  }

  lemma RefundMovesNone(s: Store, vendor: Id, order: Id, user: Id, o: Id, v: Id)
    requires IsSlice(s, o, v)
    ensures GivenStatus(s, IssueRefund(s, vendor, order, user).0, o, v, None)
  {
    hide Successors;
  }

  /** A buyer cancels exactly an order of a tenant that the buyer is a member of, while all of its slices are
      placed; then each of them owes its vendor's total back, and no other order changes. */
  lemma CancelExactly(s: Store, tenant: Id, order: Id, user: Id)
    requires OrderTablesOk(s)
    ensures var (t, out) := CancelOrder(s, tenant, order, user);
      && (out == Done <==>
            && IsMemberOf(s, tenant, user) && order in s.orders && s.orders[order].tenant == tenant
            && forall v | v in s.orders[order].slices :: s.orders[order].slices[v].status == Placed)
      && (out != Done ==> t == s)
      && (out == Done ==>
            && order in t.orders && t == s.(orders := s.orders[order := t.orders[order]])
            && t.orders[order] == s.orders[order].(status := OrderCancelled, slices := t.orders[order].slices)
            && t.orders[order].slices.Keys == s.orders[order].slices.Keys
            && forall v | v in s.orders[order].slices ::
                t.orders[order].slices[v] ==
                  Slice(Cancelled, "", "", RefundPending,
                        Some(VendorTotal(Sellers(s), s.orders[order].lines, v))))
  {
    hide Rollup, Checkouts, VendorTotal, SellersOf, VendorsOf;
    if order in s.orders {
      assert OrderOk(Sellers(s), s.orders[order]);
      forall v | v in s.orders[order].slices && s.orders[order].slices[v].status == Placed
        ensures s.orders[order].slices[v].courier == "" && s.orders[order].slices[v].tracking == ""
      {
        assert SliceOk(s.orders[order].slices[v], VendorTotal(Sellers(s), s.orders[order].lines, v));
      }
    }
  }

  /** A refund is issued exactly by an owner of the vendor, of a slice that is cancelled and waits for it; it
      is refunded then, and nothing else changes. */
  lemma RefundExactly(s: Store, vendor: Id, order: Id, user: Id)
    ensures var (t, out) := IssueRefund(s, vendor, order, user);
      && (out == Done <==>
            && vendor in s.owners && user in s.owners[vendor] && IsSlice(s, order, vendor)
            && s.orders[order].slices[vendor].status == Cancelled
            && s.orders[order].slices[vendor].refund == RefundPending)
      && (out != Done ==> t == s)
      && (out == Done ==>
            && order in t.orders && t == s.(orders := s.orders[order := t.orders[order]])
            && vendor in t.orders[order].slices && t.orders[order].slices[vendor].refund == Refunded
            && t.orders[order] ==
               s.orders[order].(slices := s.orders[order].slices[vendor := s.orders[order].slices[vendor].(
                                                                   refund := Refunded)]))
  {
  }

  /** Each status follows the one before it. */
  ghost predicate Follows(from: SliceStatus, route: seq<SliceStatus>)
    decreases |route|
  {
    route == [] || (route[0] in Successors(from) && Follows(route[0], route[1..]))
  }

  lemma {:induction false} RouteFollows(s: Store, cmds: seq<Command>, o: Id, v: Id)
    requires Inv(s) && IsSlice(s, o, v)
    ensures var route, now := Route(s, cmds, o, v), Run(s, cmds).orders[o].slices;
      && Follows(s.orders[o].slices[v].status, route)
      && now[v].status == if route == [] then s.orders[o].slices[v].status else route[|route| - 1]
    decreases |cmds|
  {
    hide Inv, Apply, GivenBy, GivenStatus, Follows, Run, Later, Linked;
    if cmds == [] {
      NoStop(s, o, v);
    } else {
      RunCons(s, cmds);
      RouteStep(s, cmds[0], o, v);
      var next, given := Apply(s, cmds[0]).0, GivenBy(s, cmds[0], o, v);
      RouteFollows(next, cmds[1..], o, v);
      OneMoreStop(s, next, o, v, given, Route(next, cmds[1..], o, v));
    }
  }

  lemma NoStop(s: Store, o: Id, v: Id)
    requires Inv(s) && IsSlice(s, o, v)
    ensures Run(s, []) == s && Follows(s.orders[o].slices[v].status, [])
  {
    hide Inv;
  }

  lemma RunCons(s: Store, cmds: seq<Command>)
    requires Inv(s) && cmds != []
    ensures Linked(s) && Inv(Apply(s, cmds[0]).0) && Run(s, cmds) == Run(Apply(s, cmds[0]).0, cmds[1..])
  {
    IsLinked(s);
    StepKeeps(s, cmds[0]);
    hide Inv, Apply;
  }

  lemma OneMoreStop(s: Store, t: Store, o: Id, v: Id, given: Option<SliceStatus>, rest: seq<SliceStatus>)
    requires IsSlice(s, o, v) && GivenStatus(s, t, o, v, given) && Follows(t.orders[o].slices[v].status, rest)
    ensures var route := (if given.Some? then [given.value] else []) + rest;
      && Follows(s.orders[o].slices[v].status, route)
      && (if route == [] then s.orders[o].slices[v].status else route[|route| - 1])
         == (if rest == [] then t.orders[o].slices[v].status else rest[|rest| - 1])
  {
    hide Successors;
    if given.Some? {
      assert ([given.value] + rest)[1..] == rest;
    } else {
      assert [] + rest == rest;
    }
  }

  /** `to` is the one status that follows `from`. */
  lemma OneWay(from: SliceStatus, to: SliceStatus, tail: seq<SliceStatus>)
    requires Successors(from) == {to} && forall r :: Follows(to, r) <==> r <= tail
    ensures forall r :: Follows(from, r) <==> r <= [to] + tail
  {
    hide Successors;
    forall r ensures Follows(from, r) <==> r <= [to] + tail {
      if r != [] {
        assert r == [r[0]] + r[1..];
        assert ([to] + tail)[1..] == tail;
        assert Follows(r[0], r[1..]) && r[0] == to <==> r[1..] <= tail && r[0] == to;
        assert r[1..] <= tail && r[0] == to <==> r <= [to] + tail;
      }
    }
  }

  lemma NoWay(from: SliceStatus)
    requires Successors(from) == {}
    ensures forall r :: Follows(from, r) <==> r == []
  {
  }

  /** The routes from placed are exactly the beginnings of three. */
  lemma Routes(route: seq<SliceStatus>)
    ensures Follows(Placed, route) <==> route <= DELIVERED_ROUTE || route <= DELAYED_ROUTE || route <= CANCELLED_ROUTE
  {
    NoWay(Delivered);
    NoWay(Cancelled);
    OneWay(Shipped, Delivered, []);
    OneWay(ReadyToShip, Shipped, [Delivered]);
    OneWay(Delayed, ReadyToShip, [Shipped, Delivered]);
    assert [Shipped] + [Delivered] == [Shipped, Delivered];
    assert [ReadyToShip] + [Shipped, Delivered] == [ReadyToShip, Shipped, Delivered];
    FromPlaced(route);
  }

  /** Over any run a slice that is placed takes one of three routes, as far as its calls have brought it:
      to delivered, with or without a delay, or to cancelled; and its status is the last of them. */
  lemma RouteOfSlice(s: Store, cmds: seq<Command>, o: Id, v: Id)
    requires Inv(s) && IsSlice(s, o, v) && s.orders[o].slices[v].status == Placed
    ensures var route, now := Route(s, cmds, o, v), Run(s, cmds).orders[o].slices;
      && (route <= DELIVERED_ROUTE || route <= DELAYED_ROUTE || route <= CANCELLED_ROUTE)
      && now[v].status == if route == [] then Placed else route[|route| - 1]
  {
    hide Inv, Route, Run, Follows;
    RouteFollows(s, cmds, o, v);
    Routes(Route(s, cmds, o, v));
  }

  /** A step of one of those routes. */
  predicate IsStep(from: SliceStatus, to: SliceStatus) {
    || (from == Placed && (to == Confirmed || to == Cancelled))
    || (from == Confirmed && to == Processing)
    || (from == Processing && (to == ReadyToShip || to == Delayed))
    || (from == Delayed && to == ReadyToShip)
    || (from == ReadyToShip && to == Shipped)
    || (from == Shipped && to == Delivered)
  }

  lemma StepsOfTable(from: SliceStatus, to: SliceStatus)
    ensures to in Successors(from) <==> IsStep(from, to)
  {
  }

  /** An advance is accepted exactly if it is a step of such a route, asked for by an owner of a vendor with
      a slice of the order, with courier and tracking number if it ships. */
  lemma AdvanceExactly(s: Store, vendor: Id, order: Id, user: Id, to: SliceStatus, courier: string, tracking: string)
    requires OrderTablesOk(s)
    ensures Advance(s, vendor, order, user, to, courier, tracking).1 == Done <==>
            && vendor in s.owners && user in s.owners[vendor] && IsSlice(s, order, vendor)
            && IsStep(s.orders[order].slices[vendor].status, to)
            && (to == Shipped ==> Text.Strip(courier) != "" && Text.Strip(tracking) != "")
  {
    AdvanceEffect(s, vendor, order, user, to, courier, tracking);
    hide OrderTablesOk, Advance, Text.Strip, Successors, IsStep;
    if IsSlice(s, order, vendor) {
      StepsOfTable(s.orders[order].slices[vendor].status, to);
    }
  }

  lemma FromProcessing(route: seq<SliceStatus>)
    requires forall r :: Follows(ReadyToShip, r) <==> r <= [Shipped, Delivered]
    requires forall r :: Follows(Delayed, r) <==> r <= [ReadyToShip, Shipped, Delivered]
    ensures Follows(Processing, route) <==>
            route <= [ReadyToShip, Shipped, Delivered] || route <= [Delayed, ReadyToShip, Shipped, Delivered]
  {
    if route != [] {
      assert route == [route[0]] + route[1..];
      assert [ReadyToShip, Shipped, Delivered][1..] == [Shipped, Delivered];
      assert [Delayed, ReadyToShip, Shipped, Delivered][1..] == [ReadyToShip, Shipped, Delivered];
    }
  }

  lemma FromConfirmed(route: seq<SliceStatus>)
    requires forall r :: Follows(ReadyToShip, r) <==> r <= [Shipped, Delivered]
    requires forall r :: Follows(Delayed, r) <==> r <= [ReadyToShip, Shipped, Delivered]
    ensures Follows(Confirmed, route) <==> route <= DELIVERED_ROUTE[1..] || route <= DELAYED_ROUTE[1..]
  {
    if route != [] {
      assert route == [route[0]] + route[1..];
      FromProcessing(route[1..]);
      hide Follows;
      assert DELIVERED_ROUTE[1..][1..] == [ReadyToShip, Shipped, Delivered];
      assert DELAYED_ROUTE[1..][1..] == [Delayed, ReadyToShip, Shipped, Delivered];
    }
  }

  lemma FromPlaced(route: seq<SliceStatus>)
    requires forall r :: Follows(Cancelled, r) <==> r == []
    requires forall r :: Follows(ReadyToShip, r) <==> r <= [Shipped, Delivered]
    requires forall r :: Follows(Delayed, r) <==> r <= [ReadyToShip, Shipped, Delivered]
    ensures Follows(Placed, route) <==> route <= DELIVERED_ROUTE || route <= DELAYED_ROUTE || route <= CANCELLED_ROUTE
  {
    if route != [] {
      assert route == [route[0]] + route[1..];
      FromConfirmed(route[1..]);
      assert route <= CANCELLED_ROUTE <==> route[0] == Cancelled && route[1..] == [];
    }
  }
}
