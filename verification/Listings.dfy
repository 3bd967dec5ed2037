/** Products, offerings and the operator's review of listings, as values. */
module Listings {
  import opened Errors
  import Text

  type Id = nat

  /** An amount of money in minor units. */
  type Price = int

  datatype ProductStatus = Draft | Published | Archived
  datatype Review = NotSubmitted | PendingReview | Live | Rejected
  datatype OfferingStatus = DraftOffering | PublishedOffering | Unpublished

  /** The parts of the content document that a listing shows, and the rest of it. */
  datatype Content = Content(sku: string, brand: string, netWeight: string, mrp: Price, images: seq<string>,
                             rest: string)

  /** `ships` is the one fulfilment type that needs service cities. */
  datatype Product = Product(vendor: Id, plugin: Option<Id>, ships: bool, status: ProductStatus, review: Review,
                             name: string, description: string, category: string)
  datatype Offering = Offering(product: Id, plan: string, price: Price, status: OfferingStatus)

  /** What an operator sees and approves. */
  datatype Snapshot = Snapshot(name: string, description: string, category: string,
                               sku: string, brand: string, netWeight: string, mrp: Price, images: seq<string>)

  /** `vendors` maps each vendor to whether it is verified, `approvals` each plugin to how many of its
      versions are approved, `cities` each product to its service cities. `reviewRequired` is the
      platform's switch. `approved` is history that the service does not keep: the snapshot that an
      operator last approved. */
  datatype Store = Store(
    nextId: Id, reviewRequired: bool, vendors: map<Id, bool>, approvals: map<Id, nat>, products: map<Id, Product>,
    contents: map<Id, Content>, cities: map<Id, set<Id>>, offerings: map<Id, Offering>, approved: map<Id, Snapshot>)

  const EMPTY := Store(0, true, map[], map[], map[], map[], map[], map[], map[])

  const NO_CONTENT := Content("", "", "", 0, [], "")

  function ListingSnapshot(product: Product, content: Content): Snapshot {
    Snapshot(product.name, product.description, product.category, content.sku, content.brand, content.netWeight,
             content.mrp, content.images)
  }

  function ContentOf(contents: map<Id, Content>, p: Id): Content {
    if p in contents then contents[p] else NO_CONTENT
  }

  function SnapshotOf(s: Store, p: Id): Snapshot
    requires p in s.products
  {
    ListingSnapshot(s.products[p], ContentOf(s.contents, p))
  }

  /** The product's offerings in the given states, moved to another. */
  function Moved(offerings: map<Id, Offering>, p: Id, from: set<OfferingStatus>,
                 to: OfferingStatus): map<Id, Offering> {
    map k | k in offerings :: if offerings[k].product == p && offerings[k].status in from then
      offerings[k].(status := to) else offerings[k]
  }

  // ---------- products

  /** `valid` is the outcome of the field checks. */
  function CreateProduct(s: Store, permitted: bool, valid: bool, vendor: Id, plugin: Option<Id>, ships: bool,
                         name: string, description: string, category: string, content: Content): (Store, Outcome)
  {
    if !permitted || vendor !in s.vendors || !s.vendors[vendor] then (s, Refused(Forbidden))
    else if !valid || Text.Strip(name) == "" then (s, Refused(Validation))
    else
      (s.(nextId := s.nextId + 1,
          products := s.products[s.nextId := Product(vendor, plugin, ships, Draft, NotSubmitted, Text.Strip(name),
                                                     Text.Strip(description), Text.Strip(category))],
          contents := s.contents[s.nextId := content]), Done)
  }

  const STANDARD := "Standard"

  function Standards(offerings: map<Id, Offering>, p: Id): set<Id> {
    set k | k in offerings && offerings[k].product == p && offerings[k].plan == STANDARD
  }

  /** The listing's own offering, added or reset to a draft at the listing's price. */
  ghost function WithStandard(s: Store, p: Id, price: Price): Store {
    var mine := Standards(s.offerings, p);
    if mine == {} then s.(nextId := s.nextId + 1,
                          offerings := s.offerings[s.nextId := Offering(p, STANDARD, price, DraftOffering)])
    else
      var k :| k in mine;
      s.(offerings := s.offerings[k := s.offerings[k].(price := price, status := DraftOffering)])
  }

  /** A submitted listing: the product as named or a new one, its content replaced and put up for
      review. Two standard offerings of one product are more than the query for it can take. */
  ghost function Submit(s: Store, permitted: bool, valid: bool, vendor: Id, product: Option<Id>, ships: bool,
                        name: string, description: string, category: string, content: Content,
                        places: set<Id>): (Store, Outcome)
  {
    if !permitted || vendor !in s.vendors || !s.vendors[vendor] then (s, Refused(Forbidden))
    else if !valid || (ships && places == {}) then (s, Refused(Validation))
    else if product.Some? && product.value !in s.products then (s, Refused(NotFound))
    else if product.Some? && s.products[product.value].vendor != vendor then (s, Refused(NotFound))
    else if product.Some? && s.products[product.value].status == Archived then (s, Refused(Conflict))
    else
      var p := if product.Some? then product.value else s.nextId;
      var plugin := if product.Some? then s.products[product.value].plugin else None;
      var t := s.(nextId := if product.Some? then s.nextId else s.nextId + 1,
                  products := s.products[p := Product(vendor, plugin, ships, Published, PendingReview, Text.Strip(name),
                                                      Text.Strip(description), Text.Strip(category))],
                  contents := s.contents[p := content],
                  cities := if ships then s.cities[p := places] else s.cities);
      if |Standards(t.offerings, p)| > 1 then (s, Refused(ServerError)) else (WithStandard(t, p, content.mrp), Done)
  }

  function Resubmit(s: Store, permitted: bool, p: Id): (Store, Outcome) {
    if p !in s.products then (s, Refused(NotFound))
    else if !permitted then (s, Refused(Forbidden))
    else if s.products[p].review != Rejected then (s, Refused(Conflict))
    else (s.(products := s.products[p := s.products[p].(review := PendingReview)]), Done)
  }

  function Edited(product: Product, name: Option<string>, description: Option<string>,
                  category: Option<string>): Product {
    product.(name := if name.Some? && Text.Strip(name.value) != "" then Text.Strip(name.value) else product.name,
             description := if description.Some? then Text.Strip(description.value) else product.description,
             category := if category.Some? then Text.Strip(category.value) else product.category)
  }

  /** An edit; when review is required and it changes what a live or rejected listing shows, the
      listing goes back to review and its offerings back to drafts. */
  function UpdateProduct(s: Store, permitted: bool, p: Id, name: Option<string>, description: Option<string>,
                         category: Option<string>, content: Option<Content>): (Store, Outcome)
  {
    if p !in s.products then (s, Refused(NotFound))
    else if !permitted then (s, Refused(Forbidden))
    else if s.products[p].status == Archived then (s, Refused(Conflict))
    else
      var edited := Edited(s.products[p], name, description, category);
      var contents := if content.Some? then s.contents[p := content.value] else s.contents;
      if s.reviewRequired && (edited.review == Live || edited.review == Rejected)
         && ListingSnapshot(edited, ContentOf(contents, p)) != SnapshotOf(s, p) then
        (s.(products := s.products[p := edited.(review := PendingReview)], contents := contents,
            offerings := Moved(s.offerings, p, {PublishedOffering}, DraftOffering)), Done)
      else (s.(products := s.products[p := edited], contents := contents), Done)
  }

  function ArchiveProduct(s: Store, permitted: bool, p: Id): (Store, Outcome) {
    if p !in s.products then (s, Refused(NotFound))
    else if !permitted then (s, Refused(Forbidden))
    else if s.products[p].status == Archived then (s, Refused(Conflict))
    else
      (s.(products := s.products[p := s.products[p].(status := Archived)],
          offerings := Moved(s.offerings, p, {PublishedOffering}, Unpublished)), Done)
  }

  function SetCities(s: Store, permitted: bool, p: Id, valid: bool, places: set<Id>): (Store, Outcome) {
    if p !in s.products then (s, Refused(NotFound))
    else if !permitted then (s, Refused(Forbidden))
    else if !valid || !s.products[p].ships || places == {} then (s, Refused(Validation))
    else (s.(cities := s.cities[p := places]), Done)
  }

  /** A vendor's city deleted, unless its warehouse still has stock: no product is served from it any more. */
  function DeleteCity(s: Store, permitted: bool, stocked: bool, city: Id): (Store, Outcome) {
    if !permitted then (s, Refused(Forbidden))
    else if stocked then (s, Refused(Conflict))
    else (s.(cities := map p | p in s.cities :: s.cities[p] - {city}), Done)
  }

  // ---------- offerings

  function CreateOffering(s: Store, permitted: bool, p: Id, plan: string, period: string,
                          price: Price): (Store, Outcome) {
    if p !in s.products then (s, Refused(NotFound))
    else if !permitted then (s, Refused(Forbidden))
    else if s.products[p].status == Archived then (s, Refused(Conflict))
    else if Text.Strip(plan) == "" || Text.Strip(period) == "" || price < 0 then (s, Refused(Validation))
    else (s.(nextId := s.nextId + 1,
             offerings := s.offerings[s.nextId := Offering(p, Text.Strip(plan), price, DraftOffering)]), Done)
  }

  function UpdatePrice(s: Store, permitted: bool, k: Id, price: Price): (Store, Outcome) {
    if k !in s.offerings || s.offerings[k].product !in s.products then (s, Refused(NotFound))
    else if !permitted then (s, Refused(Forbidden))
    else if s.products[s.offerings[k].product].status == Archived then (s, Refused(Conflict))
    else if price < 0 then (s, Refused(Validation))
    else (s.(offerings := s.offerings[k := s.offerings[k].(price := price)]), Done)
  }

  function ApprovedVersions(s: Store, plugin: Option<Id>): nat {
    if plugin.Some? && plugin.value in s.approvals then s.approvals[plugin.value] else 0
  }

  /** Publishing needs an approved plugin version, found by a query that two of them break. When
      review is required and the listing is not live, the call queues it for review instead. */
  function PublishOffering(s: Store, permitted: bool, k: Id): (Store, Outcome) {
    if k !in s.offerings || s.offerings[k].product !in s.products then (s, Refused(NotFound))
    else if !permitted then (s, Refused(Forbidden))
    else if s.offerings[k].status != DraftOffering then (s, Refused(Conflict))
    else
      var p := s.offerings[k].product;
      var product := s.products[p];
      if ApprovedVersions(s, product.plugin) > 1 then (s, Refused(ServerError))
      else if ApprovedVersions(s, product.plugin) == 0 then (s, Refused(Conflict))
      else if s.reviewRequired && product.review != Live then
        (s.(products := s.products[p := product.(review := PendingReview, status := Published)]), Done)
      else
        (s.(offerings := s.offerings[k := s.offerings[k].(status := PublishedOffering)],
            products := s.products[p := product.(review := Live, status := if product.status == Draft then Published
                                                 else product.status)]),
         Done)
  }

  // ---------- the operator

  function ApproveProduct(s: Store, operator: bool, p: Id): (Store, Outcome) {
    if !operator then (s, Refused(Forbidden))
    else if p !in s.products then (s, Refused(NotFound))
    else if s.products[p].review != PendingReview then (s, Refused(Conflict))
    else
      var product := s.products[p];
      (s.(products := s.products[p := product.(review := Live, status := if product.status == Draft then Published
                                               else product.status)],
          offerings := Moved(s.offerings, p, {DraftOffering}, PublishedOffering),
          approved := s.approved[p := SnapshotOf(s, p)]), Done)
  }

  function RejectProduct(s: Store, operator: bool, p: Id, reason: string): (Store, Outcome) {
    if !operator then (s, Refused(Forbidden))
    else if Text.Strip(reason) == "" then (s, Refused(Validation))
    else if p !in s.products then (s, Refused(NotFound))
    else if s.products[p].review != PendingReview then (s, Refused(Conflict))
    else
      (s.(products := s.products[p := s.products[p].(review := Rejected)],
          offerings := Moved(s.offerings, p, {PublishedOffering, DraftOffering}, Unpublished)), Done)
  }

  function SuspendVendor(s: Store, operator: bool, vendor: Id, reason: string): (Store, Outcome) {
    if !operator then (s, Refused(Forbidden))
    else if Text.Strip(reason) == "" then (s, Refused(Validation))
    else if vendor !in s.vendors then (s, Refused(NotFound))
    else if !s.vendors[vendor] then (s, Refused(Conflict))
    else
      (s.(vendors := s.vendors[vendor := false],
          offerings := map k | k in s.offerings ::
            if s.offerings[k].status == PublishedOffering && s.offerings[k].product in s.products
               && s.products[s.offerings[k].product].vendor == vendor
            then s.offerings[k].(status := Unpublished) else s.offerings[k]), Done)
  }

  function ReinstateVendor(s: Store, operator: bool, vendor: Id): (Store, Outcome) {
    if !operator then (s, Refused(Forbidden))
    else if vendor !in s.vendors then (s, Refused(NotFound))
    else if s.vendors[vendor] then (s, Refused(Conflict))
    else (s.(vendors := s.vendors[vendor := true]), Done)
  }

  // ---------- the catalogue

  datatype Card = Card(offering: Id, product: Id, name: string, category: string, plan: string, price: Price)

  /** The filter that no request can switch off. */
  predicate Shown(s: Store, k: Id)
    requires k in s.offerings
  {
    var p := s.offerings[k].product;
    && s.offerings[k].status == PublishedOffering
    && p in s.products && s.products[p].status == Published
    && (s.reviewRequired ==> s.products[p].review == Live || s.products[p].review == NotSubmitted)
    && (s.products[p].ships ==> p in s.cities && s.cities[p] != {})
  }

  function CardOf(s: Store, k: Id): Card
    requires k in s.offerings && s.offerings[k].product in s.products
  {
    var o := s.offerings[k];
    Card(k, o.product, s.products[o.product].name, s.products[o.product].category, o.plan, o.price)
  }

  /** The catalogue before a request's own filters, which only take cards away. */
  function Catalog(s: Store): set<Card> {
    set k | k in s.offerings && Shown(s, k) :: CardOf(s, k)
  }

  datatype Visibility = Hidden | AwaitingReview | Visible

  predicate HasPublished(offerings: map<Id, Offering>, p: Id) {
    exists k | k in offerings :: offerings[k].product == p && offerings[k].status == PublishedOffering
  }

  /** What the vendor is told about the product. */
  function VisibilityOf(s: Store, p: Id): Visibility
    requires p in s.products
  {
    var product := s.products[p];
    if product.status == Archived || product.review == Rejected then Hidden
    else if product.review == PendingReview then AwaitingReview
    else if product.ships then if product.review == Live && p in s.cities && s.cities[p] != {} then Visible else Hidden
    else if HasPublished(s.offerings, p) then Visible else Hidden
  }

  /** The buyer's page of a product; a product in several cities is more than the query for one can take. */
  function PageOf(s: Store, p: Id): Outcome {
    if p !in s.products || s.products[p].status != Published then Refused(NotFound)
    else if s.reviewRequired && s.products[p].review != Live && s.products[p].review != NotSubmitted then
      Refused(NotFound)
    else if !s.products[p].ships then Done
    else if p !in s.cities || s.cities[p] == {} then Refused(NotFound)
    else if |s.cities[p]| > 1 then Refused(ServerError)
    else Done
  }

  // ---------- runs

  datatype Command =
    | DoVerifyVendor(vendor: Id)
    | DoApproveVersion(plugin: Id)
    | DoSetReview(required: bool)
    | DoCreateProduct(permitted: bool, valid: bool, vendor: Id, withPlugin: Option<Id>, ships: bool, name: string,
                      description: string,
                      category: string, content: Content)
    | DoSubmit(permitted: bool, valid: bool, vendor: Id, existing: Option<Id>, ships: bool, name: string,
               description: string,
               category: string, content: Content, places: set<Id>)
    | DoResubmit(permitted: bool, product: Id)
    | DoUpdate(permitted: bool, product: Id, newName: Option<string>, newDescription: Option<string>,
               newCategory: Option<string>,
               newContent: Option<Content>)
    | DoArchive(permitted: bool, product: Id)
    | DoSetCities(permitted: bool, product: Id, valid: bool, places: set<Id>)
    | DoDeleteCity(permitted: bool, stocked: bool, city: Id)
    | DoCreateOffering(permitted: bool, product: Id, plan: string, period: string, price: Price)
    | DoUpdatePrice(permitted: bool, offering: Id, price: Price)
    | DoPublish(permitted: bool, offering: Id)
    | DoApprove(operator: bool, product: Id)
    | DoReject(operator: bool, product: Id, reason: string)
    | DoSuspendVendor(operator: bool, vendor: Id, reason: string)
    | DoReinstateVendor(operator: bool, vendor: Id)

  ghost function Apply(s: Store, cmd: Command): (Store, Outcome) {
    match cmd
    case DoVerifyVendor(vendor) => (s.(vendors := s.vendors[vendor := true]), Done)
    case DoApproveVersion(plugin) =>
      (s.(approvals := s.approvals[plugin := ApprovedVersions(s, Some(plugin)) + 1]), Done)
    case DoSetReview(required) => (s.(reviewRequired := required), Done)
    case DoCreateProduct(permitted, valid, vendor, plugin, ships, name, description, category, content) =>
      CreateProduct(s, permitted, valid, vendor, plugin, ships, name, description, category, content)
    case DoSubmit(permitted, valid, vendor, product, ships, name, description, category, content, places) =>
      Submit(s, permitted, valid, vendor, product, ships, name, description, category, content, places)
    case DoResubmit(permitted, p) => Resubmit(s, permitted, p)
    case DoUpdate(permitted, p, name, description, category, content) =>
      UpdateProduct(s, permitted, p, name, description, category, content)
    case DoArchive(permitted, p) => ArchiveProduct(s, permitted, p)
    case DoSetCities(permitted, p, valid, places) => SetCities(s, permitted, p, valid, places)
    case DoDeleteCity(permitted, stocked, city) => DeleteCity(s, permitted, stocked, city)
    case DoCreateOffering(permitted, p, plan, period, price) => CreateOffering(s, permitted, p, plan, period, price)
    case DoUpdatePrice(permitted, k, price) => UpdatePrice(s, permitted, k, price)
    case DoPublish(permitted, k) => PublishOffering(s, permitted, k)
    case DoApprove(operator, p) => ApproveProduct(s, operator, p)
    case DoReject(operator, p, reason) => RejectProduct(s, operator, p, reason)
    case DoSuspendVendor(operator, vendor, reason) => SuspendVendor(s, operator, vendor, reason)
    case DoReinstateVendor(operator, vendor) => ReinstateVendor(s, operator, vendor)
  }
}
