/** Carts, orders and vendor slices as values: what each commerce operation does to the store. */
module Orders {
  import opened Errors
  import Sums
  import Text

  type Id = nat

  datatype Kind =
    | ShipPhysical | DeliverDigital | LicenseSoftware | ProvisionSoftware | ProvisionCloud
    | StreamLmsCourse | DeliverMultimedia | DispatchService | BookAppointment

  predicate IsProvision(k: Kind) { k.ProvisionSoftware? || k.ProvisionCloud? }

  predicate NeedsAddress(k: Kind) { k.ShipPhysical? || k.DispatchService? || k.BookAppointment? }

  const PAYMENT_METHODS := {"upi", "card", "netbanking"}

  /** A requested status is any text; `Unlisted` is a text that names no status. */
  datatype SliceStatus =
    | Placed | Confirmed | Processing | Delayed | ReadyToShip | Shipped | Delivered | Cancelled
    | Unlisted(text: string)

  datatype OrderStatus = OrderPlaced | OrderProcessing | OrderPartial | OrderCancelled | OrderDelivered

  datatype RefundStatus = NoRefund | RefundPending | Refunded

  datatype CartStatus = Open | CheckedOut

  datatype Product = Product(vendor: Id, name: string, kind: Kind, published: bool)
  datatype Offering = Offering(product: Id, price: nat, published: bool)
  datatype Address = Address(tenant: Id, active: bool)
  datatype CartLine = CartLine(id: Id, offering: Id, quantity: int)
  datatype Cart = Cart(tenant: Id, status: CartStatus, lines: seq<CartLine>)
  datatype OrderLine = OrderLine(offering: Id, productName: string, kind: Kind, quantity: int, unitPrice: nat)
  datatype Slice = Slice(
    status: SliceStatus, courier: string, tracking: string, refund: RefundStatus, refundAmount: Option<int>)
  datatype Order = Order(
    tenant: Id, cart: Id, address: Option<Id>, payment: string, status: OrderStatus,
    lines: seq<OrderLine>, slices: map<Id, Slice>)

  /** Lines are kept under their cart or order, in creation order; slices under their order, by vendor.
      `nextId` stands for the source of fresh identifiers. */
  datatype Store = Store(
    nextId: Id,
    tenants: set<Id>,
    members: set<(Id, Id)>,
    owners: map<Id, set<Id>>,
    addresses: map<Id, Address>,
    products: map<Id, Product>,
    offerings: map<Id, Offering>,
    carts: map<Id, Cart>,
    orders: map<Id, Order>)

  // ---------- lookups

  /** The vendor behind each offering. */
  function SellersOf(products: map<Id, Product>, offerings: map<Id, Offering>): map<Id, Id> {
    map f | f in offerings && offerings[f].product in products :: products[offerings[f].product].vendor
  }

  function Sellers(s: Store): map<Id, Id> {
    SellersOf(s.products, s.offerings)
  }

  /** Foreign keys: every offering has its product, every cart line its offering. */
  ghost predicate Linked(s: Store) {
    && (forall f | f in s.offerings :: s.offerings[f].product in s.products)
    && LinesLinked(s.offerings.Keys, s.carts)
  }

  ghost predicate LinesLinked(offerings: set<Id>, carts: map<Id, Cart>) {
    forall c | c in carts :: LinksTo(offerings, carts[c].lines)
  }

  ghost predicate LinksTo(offerings: set<Id>, lines: seq<CartLine>) {
    forall i | 0 <= i < |lines| :: lines[i].offering in offerings
  }

  predicate IsOpen(carts: map<Id, Cart>, tenant: Id, c: Id) {
    c in carts && carts[c].tenant == tenant && carts[c].status == Open
  }

  ghost function OpenCart(carts: map<Id, Cart>, tenant: Id): (c: Option<Id>)
    ensures c.Some? ==> IsOpen(carts, tenant, c.value)
    ensures c.None? ==> forall k :: !IsOpen(carts, tenant, k)
  {
    if exists k :: IsOpen(carts, tenant, k) then var k :| IsOpen(carts, tenant, k); Some(k) else None
  }

  predicate HasLine(lines: seq<CartLine>, line: Id) {
    exists i | 0 <= i < |lines| :: lines[i].id == line
  }

  predicate HasOffering(lines: seq<CartLine>, offering: Id) {
    exists i | 0 <= i < |lines| :: lines[i].offering == offering
  }

  function Membership(s: Store, tenant: Id, user: Id): Outcome {
    if tenant !in s.tenants then Refused(NotFound)
    else if (tenant, user) !in s.members then Refused(Forbidden)
    else Done
  }

  function VendorOwnership(s: Store, vendor: Id, user: Id): Outcome {
    if vendor !in s.owners then Refused(NotFound)
    else if user !in s.owners[vendor] then Refused(Forbidden)
    else Done
  }

  // ---------- cart edits

  ghost function AddLine(s: Store, tenant: Id, user: Id, offering: Id, quantity: int): (Store, Outcome)
    requires Linked(s)
  {
    if Membership(s, tenant, user) != Done then (s, Membership(s, tenant, user))
    else if quantity < 1 then (s, Refused(Validation))
    else if offering !in s.offerings || !s.offerings[offering].published then (s, Refused(NotFound))
    else if !s.products[s.offerings[offering].product].published then (s, Refused(NotFound))
    else if IsProvision(s.products[s.offerings[offering].product].kind) then (s, Refused(Conflict))
    else match OpenCart(s.carts, tenant)
      case None =>
        var cart := Cart(tenant, Open, [CartLine(s.nextId + 1, offering, quantity)]);
        (s.(nextId := s.nextId + 2, carts := s.carts[s.nextId := cart]), Done)
      case Some(c) =>
        if HasOffering(s.carts[c].lines, offering) then (s, Refused(Conflict))
        else
          var lines := s.carts[c].lines + [CartLine(s.nextId, offering, quantity)];
          (s.(nextId := s.nextId + 1, carts := s.carts[c := s.carts[c].(lines := lines)]), Done)
  }

  function WithQuantity(lines: seq<CartLine>, line: Id, quantity: int): (r: seq<CartLine>)
    ensures |r| == |lines|
    ensures forall i | 0 <= i < |lines| ::
      r[i] == if lines[i].id == line then lines[i].(quantity := quantity) else lines[i]
  {
    seq(|lines|, i requires 0 <= i < |lines| =>
      if lines[i].id == line then lines[i].(quantity := quantity) else lines[i])
  }

  function WithoutLine(lines: seq<CartLine>, line: Id): (r: seq<CartLine>)
    ensures |r| <= |lines|
    ensures forall l :: l in r <==> l in lines && l.id != line
  {
    if lines == [] then [] else
      var rest := WithoutLine(lines[..|lines| - 1], line);
      var last := lines[|lines| - 1];
      assert lines == lines[..|lines| - 1] + [last];
      if last.id == line then rest else rest + [last]
  }

  /** A new quantity for the line, or the line gone. */
  function EditedLines(lines: seq<CartLine>, line: Id, quantity: Option<int>): seq<CartLine> {
    if quantity.Some? then WithQuantity(lines, line, quantity.value) else WithoutLine(lines, line)
  }

  ghost function EditLine(s: Store, tenant: Id, user: Id, line: Id, quantity: Option<int>): (Store, Outcome) {
    if Membership(s, tenant, user) != Done then (s, Membership(s, tenant, user))
    else if quantity.Some? && quantity.value < 1 then (s, Refused(Validation))
    else match OpenCart(s.carts, tenant)
      case None => (s, Refused(NotFound))
      case Some(c) =>
        if !HasLine(s.carts[c].lines, line) then (s, Refused(NotFound))
        else
          var lines := EditedLines(s.carts[c].lines, line, quantity);
          (s.(carts := s.carts[c := s.carts[c].(lines := lines)]), Done)
  }

  // ---------- checkout

  function Snapshot(s: Store, l: CartLine): OrderLine
    requires l.offering in s.offerings && s.offerings[l.offering].product in s.products
  {
    var p := s.products[s.offerings[l.offering].product];
    OrderLine(l.offering, p.name, p.kind, l.quantity, s.offerings[l.offering].price)
  }

  function Snapshots(s: Store, lines: seq<CartLine>): (r: seq<OrderLine>)
    requires forall i | 0 <= i < |lines| ::
      lines[i].offering in s.offerings && s.offerings[lines[i].offering].product in s.products
    ensures |r| == |lines|
    ensures forall i | 0 <= i < |lines| :: r[i] == Snapshot(s, lines[i])
  {
    seq(|lines|, i requires 0 <= i < |lines| => Snapshot(s, lines[i]))
  }

  /** The vendors behind a list of order lines. */
  function VendorsOf(sellers: map<Id, Id>, lines: seq<OrderLine>): set<Id> {
    set i | 0 <= i < |lines| && lines[i].offering in sellers :: sellers[lines[i].offering]
  }

  const NEW_SLICE := Slice(Placed, "", "", NoRefund, None)

  function NewSlices(vendors: set<Id>): map<Id, Slice> {
    map v | v in vendors :: NEW_SLICE
  }

  ghost function PlaceOrder(s: Store, tenant: Id, permitted: bool, address: Option<Id>,
                            payment: string): (Store, Outcome)
    requires Linked(s)
  {
    var method_ := Text.Lower(Text.Strip(payment));
    if !permitted then (s, Refused(Forbidden))
    else if method_ !in PAYMENT_METHODS then (s, Refused(Validation))
    else match OpenCart(s.carts, tenant)
      case None => (s, Refused(Conflict))
      case Some(c) =>
        var lines := Snapshots(s, s.carts[c].lines);
        if lines == [] then (s, Refused(Conflict))
        else if address.None? && (exists i | 0 <= i < |lines| :: NeedsAddress(lines[i].kind)) then
          (s, Refused(Validation))
        else if address.Some? && !ActiveAddress(s, tenant, address.value) then (s, Refused(NotFound))
        else
          var slices := NewSlices(VendorsOf(Sellers(s), lines));
          var order := Order(tenant, c, address, method_, OrderPlaced, lines, slices);
          (s.(nextId := s.nextId + 1,
              carts := s.carts[c := s.carts[c].(status := CheckedOut)],
              orders := s.orders[s.nextId := order]), Done)
  }

  predicate ActiveAddress(s: Store, tenant: Id, address: Id) {
    address in s.addresses && s.addresses[address].tenant == tenant && s.addresses[address].active
  }

  // ---------- money

  function LineTotal(l: OrderLine): int { l.unitPrice * l.quantity }

  function Total(lines: seq<OrderLine>): int {
    if lines == [] then 0 else Total(lines[..|lines| - 1]) + LineTotal(lines[|lines| - 1])
  }

  predicate SoldBy(sellers: map<Id, Id>, l: OrderLine, vendor: Id) {
    l.offering in sellers && sellers[l.offering] == vendor
  }

  function VendorTotal(sellers: map<Id, Id>, lines: seq<OrderLine>, vendor: Id): int {
    if lines == [] then 0 else
      var last := lines[|lines| - 1];
      VendorTotal(sellers, lines[..|lines| - 1], vendor) + if SoldBy(sellers, last, vendor) then LineTotal(last) else 0
  }

  // ---------- fulfilment

  /** The transition table of a slice. */
  function Successors(status: SliceStatus): set<SliceStatus> {
    match status
    case Placed => {Confirmed, Cancelled}
    case Confirmed => {Processing}
    case Processing => {ReadyToShip, Delayed}
    case Delayed => {ReadyToShip}
    case ReadyToShip => {Shipped}
    case Shipped => {Delivered}
    case _ => {}
  }

  predicate All(slices: map<Id, Slice>, status: SliceStatus) {
    forall v | v in slices :: slices[v].status == status
  }

  predicate Any(slices: map<Id, Slice>, status: SliceStatus) {
    exists v | v in slices :: slices[v].status == status
  }

  predicate AnyOther(slices: map<Id, Slice>, status: SliceStatus) {
    exists v | v in slices :: slices[v].status != status
  }

  /** The order status as the rollup computes it from the slices; without slices it stays as it was. */
  function Rollup(slices: map<Id, Slice>, before: OrderStatus): OrderStatus {
    if slices == map[] then before
    else if All(slices, Cancelled) then OrderCancelled
    else if All(slices, Delivered) then OrderDelivered
    else if Any(slices, Cancelled) && AnyOther(slices, Cancelled) then OrderPartial
    else if Any(slices, Delivered) && AnyOther(slices, Delivered) then OrderPartial
    else if All(slices, Placed) then OrderPlaced
    else OrderProcessing
  }

  function Moved(slice: Slice, to: SliceStatus, courier: string, tracking: string, total: int): Slice {
    var sent := if to == Shipped then slice.(courier := courier, tracking := tracking) else slice;
    var cleared := if to == Cancelled then sent.(refund := RefundPending, refundAmount := Some(total)) else sent;
    cleared.(status := to)
  }

  function Advance(s: Store, vendor: Id, order: Id, user: Id, to: SliceStatus, courier: string, tracking: string)
    : (Store, Outcome)
  {
    if VendorOwnership(s, vendor, user) != Done then (s, VendorOwnership(s, vendor, user))
    else if order !in s.orders || vendor !in VendorsOf(Sellers(s), s.orders[order].lines) then (s, Refused(NotFound))
    else
      var o := s.orders[order];
      var current := if vendor in o.slices then o.slices[vendor] else NEW_SLICE;
      var sentBy, sentAs := Text.Strip(courier), Text.Strip(tracking);
      if to !in Successors(current.status) then (s, Refused(Validation))
      else if to == Shipped && (sentBy == "" || sentAs == "") then (s, Refused(Validation))
      else
        var moved := Moved(current, to, sentBy, sentAs, VendorTotal(Sellers(s), o.lines, vendor));
        var slices := o.slices[vendor := moved];
        (s.(orders := s.orders[order := o.(slices := slices, status := Rollup(slices, o.status))]), Done)
  }

  function IssueRefund(s: Store, vendor: Id, order: Id, user: Id): (Store, Outcome) {
    if VendorOwnership(s, vendor, user) != Done then (s, VendorOwnership(s, vendor, user))
    else if order !in s.orders || vendor !in s.orders[order].slices then (s, Refused(NotFound))
    else
      var o := s.orders[order];
      var slice := o.slices[vendor];
      if slice.status != Cancelled || slice.refund != RefundPending then (s, Refused(Conflict))
      else (s.(orders := s.orders[order := o.(slices := o.slices[vendor := slice.(refund := Refunded)])]), Done)
  }

  function AllCancelled(sellers: map<Id, Id>, o: Order): map<Id, Slice> {
    map v | v in o.slices ::
      o.slices[v].(status := Cancelled, refund := RefundPending,
                   refundAmount := Some(VendorTotal(sellers, o.lines, v)))
  }

  function CancelOrder(s: Store, tenant: Id, order: Id, user: Id): (Store, Outcome)
  {
    if Membership(s, tenant, user) != Done then (s, Membership(s, tenant, user))
    else if order !in s.orders || s.orders[order].tenant != tenant then (s, Refused(NotFound))
    else if AnyOther(s.orders[order].slices, Placed) then (s, Refused(Conflict))
    else
      var o := s.orders[order];
      (s.(orders := s.orders[order := o.(slices := AllCancelled(Sellers(s), o), status := OrderCancelled)]), Done)
  }

  // ---------- runs

  /** The service's own operations, and the edits that other services make to the tables it reads. */
  datatype Command =
    | DoAddLine(tenant: Id, user: Id, offering: Id, quantity: int)
    | DoEditLine(tenant: Id, user: Id, line: Id, newQuantity: Option<int>)
    | DoPlaceOrder(tenant: Id, permitted: bool, address: Option<Id>, payment: string)
    | DoAdvance(vendor: Id, order: Id, user: Id, to: SliceStatus, courier: string, tracking: string)
    | DoIssueRefund(vendor: Id, order: Id, user: Id)
    | DoCancelOrder(tenant: Id, order: Id, user: Id)
    | NewProduct(product: Product)
    | NewOffering(newOffering: Offering)
    | EditProduct(id: Id, name: string, kind: Kind, published: bool)
    | EditOffering(id: Id, price: nat, published: bool)
    | EditDirectory(tenants: set<Id>, members: set<(Id, Id)>, owners: map<Id, set<Id>>, addresses: map<Id, Address>)

  ghost function Apply(s: Store, cmd: Command): (Store, Outcome)
    requires Linked(s)
  {
    match cmd
    case DoAddLine(tenant, user, offering, quantity) => AddLine(s, tenant, user, offering, quantity)
    case DoEditLine(tenant, user, line, quantity) => EditLine(s, tenant, user, line, quantity)
    case DoPlaceOrder(tenant, permitted, address, payment) => PlaceOrder(s, tenant, permitted, address, payment)
    case DoAdvance(vendor, order, user, to, courier, tracking) => Advance(s, vendor, order, user, to, courier, tracking)
    case DoIssueRefund(vendor, order, user) => IssueRefund(s, vendor, order, user)
    case DoCancelOrder(tenant, order, user) => CancelOrder(s, tenant, order, user)
    case NewProduct(product) => (s.(nextId := s.nextId + 1, products := s.products[s.nextId := product]), Done)
    case NewOffering(offering) =>
      if offering.product !in s.products then (s, Refused(NotFound))
      else (s.(nextId := s.nextId + 1, offerings := s.offerings[s.nextId := offering]), Done)
    case EditProduct(id, name, kind, published) =>
      if id !in s.products then (s, Refused(NotFound))
      else (s.(products := s.products[id := Product(s.products[id].vendor, name, kind, published)]), Done)
    case EditOffering(id, price, published) =>
      if id !in s.offerings then (s, Refused(NotFound))
      else (s.(offerings := s.offerings[id := Offering(s.offerings[id].product, price, published)]), Done)
    case EditDirectory(tenants, members, owners, addresses) =>
      (s.(tenants := tenants, members := members, owners := owners, addresses := addresses), Done)
  }
}
