/** What the calls of the review do to what is on sale, and whether an archived product stays archived. */
module ListingCalls {
  import opened Errors
  import opened Listings
  import opened ListingLaws
  import Text

  // ---------- taken off sale

  /** The offering is of the product. */
  predicate IsOf(s: Store, k: Id, p: Id) {
    k in s.offerings && s.offerings[k].product == p
  }

  /** The product's offerings in the states given have moved to another, and no other has changed. */
  ghost predicate MovedOnly(s: Store, t: Store, p: Id, from: set<OfferingStatus>, to: OfferingStatus) {
    && t.offerings.Keys == s.offerings.Keys
    && forall k | k in s.offerings ::
         t.offerings[k] == if IsOf(s, k, p) && s.offerings[k].status in from then s.offerings[k].(status := to)
                           else s.offerings[k]
  }

  /** The product alone has changed, in its status and its review. */
  ghost predicate ProductOnly(s: Store, t: Store, p: Id, status: ProductStatus, review: Review) {
    && p in s.products && t.products == s.products[p := s.products[p].(status := status, review := review)]
    && t == s.(products := t.products, offerings := t.offerings, approved := t.approved)
  }

  /** A product is archived exactly by who may, and once. Its cards are gone, its published offerings are off
      sale for good, its drafts stay drafts, and no other card changes. */
  lemma ArchiveExactly(s: Store, permitted: bool, p: Id)
    ensures var (t, out) := ArchiveProduct(s, permitted, p);
      && (out == Done <==> p in s.products && permitted && s.products[p].status != Archived)
      && (out != Done ==> t == s)
      && (out == Done ==>
            && ProductOnly(s, t, p, Archived, s.products[p].review) && t.approved == s.approved
            && MovedOnly(s, t, p, {PublishedOffering}, Unpublished)
            && forall k | k in s.offerings :: Shown(t, k) <==> Shown(s, k) && !IsOf(s, k, p))
  {
  }

  /** A listing is submitted exactly by who may, of a verified vendor, in order, with places to ship to if it
      ships; for a product of the vendor that is not archived and has one standard offering at most, or a new
      one. */
  lemma SubmitExactly(s: Store, permitted: bool, valid: bool, vendor: Id, product: Option<Id>, ships: bool,
                      name: string, description: string, category: string, content: Content, places: set<Id>)
    requires Inv(s)
    ensures Submit(s, permitted, valid, vendor, product, ships, name, description, category, content,
                   places).1 == Done <==>
            && permitted && vendor in s.vendors && s.vendors[vendor] && valid && (ships ==> places != {})
            && match product
               case None => true
               case Some(p) =>
                 && p in s.products && s.products[p].vendor == vendor && s.products[p].status != Archived
                 && forall j, k | IsOf(s, j, p) && IsOf(s, k, p)
                     && s.offerings[j].plan == s.offerings[k].plan == "Standard"
                     :: j == k
  {
    hide Text.Strip, WithStandard;
    NoneYet(s);
    if product.Some? {
      OneStandard(s, product.value);
    }
    hide Inv, Standards;
  }

  lemma NoneYet(s: Store)
    requires Inv(s)
    ensures Standards(s.offerings, s.nextId) == {}
  {
  }

  lemma OneStandard(s: Store, p: Id)
    ensures |Standards(s.offerings, p)| <= 1 <==>
            forall j, k | IsOf(s, j, p) && IsOf(s, k, p) && s.offerings[j].plan == s.offerings[k].plan == "Standard" ::
              j == k
  {
    var mine := Standards(s.offerings, p);
    forall j, k | IsOf(s, j, p) && IsOf(s, k, p) && s.offerings[j].plan == s.offerings[k].plan == "Standard"
      ensures |mine| <= 1 ==> j == k
    {
      assert j in mine && k in mine;
      if j != k {
        assert k in mine - {j} && |mine - {j}| == |mine| - 1;
      }
    }
    if |mine| > 1 {
      var j :| j in mine;
      assert |mine - {j}| == |mine| - 1;
      var k :| k in mine - {j};
      assert IsOf(s, j, p) && IsOf(s, k, p);
    }
  }

  /** A rejected listing is resubmitted exactly by who may. */
  lemma ResubmitExactly(s: Store, permitted: bool, p: Id)
    ensures var (t, out) := Resubmit(s, permitted, p);
      && (out == Done <==> p in s.products && permitted && s.products[p].review == Rejected)
      && if out == Done then ProductOnly(s, t, p, s.products[p].status, PendingReview) && t.offerings == s.offerings
         else t == s
  {
  }

  /** A product is approved or rejected exactly by the operator, while its review is pending, and rejected
      with a reason. */
  lemma VerdictExactly(s: Store, operator: bool, p: Id, reason: string)
    ensures ApproveProduct(s, operator, p).1 == Done <==>
              operator && p in s.products && s.products[p].review == PendingReview
    ensures RejectProduct(s, operator, p, reason).1 == Done <==>
              operator && p in s.products && s.products[p].review == PendingReview && Text.Strip(reason) != ""
  {
    hide Text.Strip;
  }

  /** A rejection takes every offering of the product off sale, its drafts with the published ones, and
      changes no other card. */
  lemma RejectionMakes(s: Store, p: Id, reason: string)
    requires RejectProduct(s, true, p, reason).1 == Done && s.reviewRequired
    ensures var t := RejectProduct(s, true, p, reason).0;
      && p in s.products && ProductOnly(s, t, p, s.products[p].status, Rejected) && t.approved == s.approved
      && MovedOnly(s, t, p, {PublishedOffering, DraftOffering}, Unpublished)
      && forall k | k in s.offerings :: Shown(t, k) <==> Shown(s, k) && !IsOf(s, k, p)
  {
    hide Text.Strip;
  }

  /** A vendor is suspended exactly by the operator, with a reason, while verified. The cards of its products
      are gone, and stay gone when it is reinstated; no other card changes. */
  lemma SuspensionExactly(s: Store, operator: bool, vendor: Id, reason: string)
    requires Inv(s)
    ensures var (t, out) := SuspendVendor(s, operator, vendor, reason);
      && (out == Done <==> operator && Text.Strip(reason) != "" && vendor in s.vendors && s.vendors[vendor])
      && (out != Done ==> t == s)
      && (out == Done ==> forall k | k in s.offerings ::
            k in t.offerings && s.offerings[k].product in s.products &&
            (Shown(t, k) <==> Shown(s, k) && s.products[s.offerings[k].product].vendor != vendor))
      && (out == Done ==> forall k | k in s.offerings ::
            Shown(ReinstateVendor(t, true, vendor).0, k) <==> Shown(t, k))
  {
    hide Text.Strip;
  }

  // ---------- products, offerings, cities and vendors as they come

  /** A product is created exactly by who may, of a verified vendor, with a name: a draft that nobody has
      submitted, with the content given. */
  lemma CreateExactly(s: Store, permitted: bool, valid: bool, vendor: Id, plugin: Option<Id>, ships: bool, name: string,
                      description: string, category: string, content: Content)
    requires Inv(s)
    ensures var (t, out) := CreateProduct(s, permitted, valid, vendor, plugin, ships, name, description, category,
                                          content);
      && (out == Done <==>
            permitted && vendor in s.vendors && s.vendors[vendor] && valid && Text.Strip(name) != "")
      && (out != Done ==> t == s)
      && (out == Done ==>
            && s.nextId !in s.products && s.nextId in t.products
            && t == s.(nextId := s.nextId + 1, contents := s.contents[s.nextId := content],
                       products := s.products[s.nextId := t.products[s.nextId]])
            && t.products[s.nextId] == Product(vendor, plugin, ships, Draft, NotSubmitted, Text.Strip(name),
                                               Text.Strip(description), Text.Strip(category)))
  {
    NextId(s);
    hide Inv, Text.Strip;
  }

  /** An offering is created exactly by who may, of a product that is not archived, with a plan, a period and a
      price: as a draft, which shows nothing. */
  lemma OfferingExactly(s: Store, permitted: bool, p: Id, plan: string, period: string, price: Price)
    requires Inv(s)
    ensures var (t, out) := CreateOffering(s, permitted, p, plan, period, price);
      && (out == Done <==>
            && permitted && p in s.products && s.products[p].status != Archived
            && Text.Strip(plan) != "" && Text.Strip(period) != "" && price >= 0)
      && (out != Done ==> t == s)
      && (out == Done ==>
            && s.nextId !in s.offerings
            && t == s.(nextId := s.nextId + 1,
                       offerings := s.offerings[s.nextId := Offering(p, Text.Strip(plan), price, DraftOffering)])
            && forall k | k in t.offerings :: Shown(t, k) <==> k in s.offerings && Shown(s, k))
  {
    NextOffering(s);
    hide Inv, Text.Strip;
  }

  lemma NextOffering(s: Store)
    requires Inv(s)
    ensures s.nextId !in s.offerings
  {
  }

  /** A price is set exactly by who may, of a product that is not archived; and nothing but it changes. */
  lemma PriceExactly(s: Store, permitted: bool, k: Id, price: Price)
    requires Inv(s)
    ensures var (t, out) := UpdatePrice(s, permitted, k, price);
      && (out == Done <==>
            && permitted && k in s.offerings && s.offerings[k].product in s.products
            && s.products[s.offerings[k].product].status != Archived && price >= 0)
      && t == if out == Done then s.(offerings := s.offerings[k := s.offerings[k].(price := price)]) else s
  {
  }

  /** Cities are set exactly by who may, of a product that ships, and at least one; a city is deleted exactly by
      who may, while its warehouse is empty, and is then no product's. */
  lemma CitiesExactly(s: Store, permitted: bool, p: Id, valid: bool, places: set<Id>, stocked: bool, city: Id)
    ensures var (t, out) := SetCities(s, permitted, p, valid, places);
      && (out == Done <==> permitted && p in s.products && s.products[p].ships && valid && places != {})
      && t == if out == Done then s.(cities := s.cities[p := places]) else s
    ensures var (t, out) := DeleteCity(s, permitted, stocked, city);
      && (out == Done <==> permitted && !stocked)
      && (out != Done ==> t == s)
      && (out == Done ==>
            && t == s.(cities := t.cities) && t.cities.Keys == s.cities.Keys
            && forall q, c | q in s.cities :: c in t.cities[q] <==> c in s.cities[q] && c != city)
  {
  }

  /** A vendor is reinstated exactly by the operator, while suspended. */
  lemma ReinstatementExactly(s: Store, operator: bool, vendor: Id)
    ensures var (t, out) := ReinstateVendor(s, operator, vendor);
      && (out == Done <==> operator && vendor in s.vendors && !s.vendors[vendor])
      && t == if out == Done then s.(vendors := s.vendors[vendor := true]) else s
  {
  }

  // ---------- edits

  /** The edit changes what a live or rejected listing shows, so that it has to be reviewed again. */
  predicate NeedsReview(s: Store, p: Id, name: Option<string>, description: Option<string>, category: Option<string>,
                        content: Option<Content>) {
    && p in s.products && s.reviewRequired && (s.products[p].review == Live || s.products[p].review == Rejected)
    && Changes(s, p, name, description, category, content)
  }

  /** An edit is accepted exactly by who may, of a product that is not archived. If the listing has to be
      reviewed again, it waits for that, and its published offerings are drafts until then; otherwise its
      review and every offering stay as they were. */
  lemma UpdateExactly(s: Store, permitted: bool, p: Id, name: Option<string>, description: Option<string>,
                      category: Option<string>, content: Option<Content>)
    ensures var (t, out) := UpdateProduct(s, permitted, p, name, description, category, content);
      && (out == Done <==> p in s.products && permitted && s.products[p].status != Archived)
      && (out != Done ==> t == s)
      && (out == Done ==>
            && p in t.products && t.products[p].status == s.products[p].status
            && if NeedsReview(s, p, name, description, category, content) then
                 t.products[p].review == PendingReview && MovedOnly(s, t, p, {PublishedOffering}, DraftOffering)
               else t.products[p].review == s.products[p].review && t.offerings == s.offerings)
  {
    if p !in s.products || !permitted || s.products[p].status == Archived {
      UpdateRefused(s, permitted, p, name, description, category, content);
    } else {
      AcceptedUpdate(s, p, name, description, category, content);
      EditedKeeps(s.products[p], name, description, category);
      EditChanges(s, p, name, description, category, content);
      UpdatedOfferings(s, p, name, description, category, content);
    }
    hide Text.Strip, ListingSnapshot, Edited, SnapshotOf, ContentOf, Changes, UpdateProduct, MovedOnly;
  }

  lemma UpdateRefused(s: Store, permitted: bool, p: Id, name: Option<string>, description: Option<string>,
                      category: Option<string>, content: Option<Content>)
    requires p !in s.products || !permitted || s.products[p].status == Archived
    ensures var (t, out) := UpdateProduct(s, permitted, p, name, description, category, content); t == s && out != Done
  {
  }

  lemma UpdatedOfferings(s: Store, p: Id, name: Option<string>, description: Option<string>, category: Option<string>,
                         content: Option<Content>)
    requires p in s.products && s.products[p].status != Archived
    ensures var (t, out) := UpdateProduct(s, true, p, name, description, category, content);
      && out == Done
      && if NeedsReview(s, p, name, description, category, content) then
           MovedOnly(s, t, p, {PublishedOffering}, DraftOffering)
         else t.offerings == s.offerings
  {
    EditedKeeps(s.products[p], name, description, category);
    EditChanges(s, p, name, description, category, content);
    var t := UpdateProduct(s, true, p, name, description, category, content).0;
    MovedMoves(s, t, p, {PublishedOffering}, DraftOffering);
    hide Text.Strip, ListingSnapshot, Edited, SnapshotOf, ContentOf, Changes, Moved, MovedOnly;
  }

  lemma EditedKeeps(x: Product, name: Option<string>, description: Option<string>, category: Option<string>)
    ensures var y := Edited(x, name, description, category); y.status == x.status && y.review == x.review
  {
  }

  lemma MovedMoves(s: Store, t: Store, p: Id, from: set<OfferingStatus>, to: OfferingStatus)
    ensures t.offerings == Moved(s.offerings, p, from, to) ==> MovedOnly(s, t, p, from, to)
  {
  }

  /** A listing edited so that it has to be reviewed again has no card until its approval; the approval gives
      back what was for sale before the edit. */
  lemma EditReturns(s: Store, p: Id, name: Option<string>, description: Option<string>, category: Option<string>,
                    content: Option<Content>, k: Id)
    requires Inv(s) && NeedsReview(s, p, name, description, category, content) && s.products[p].status != Archived
    requires k in s.offerings
    ensures var t := UpdateProduct(s, true, p, name, description, category, content).0;
      var (z, out) := ApproveProduct(t, true, p);
      && k in t.offerings && k in z.offerings && s.offerings[k].product in s.products
      && (IsOf(s, k, p) ==> !Shown(t, k))
      && out == Done && (IsOf(s, k, p) ==> (Shown(z, k) <==> ForSale(s, k)))
      && (!IsOf(s, k, p) ==> (Shown(z, k) <==> Shown(s, k)))
  {
    UpdateExactly(s, true, p, name, description, category, content);
    UpdateFrame(s, true, p, name, description, category, content);
    hide Text.Strip, UpdateProduct, Changes;
    var t := UpdateProduct(s, true, p, name, description, category, content).0;
    UpdateTables(s, p, name, description, category, content);
    ApprovalSells(t, p, k);
  }

  lemma UpdateTables(s: Store, p: Id, name: Option<string>, description: Option<string>, category: Option<string>,
                     content: Option<Content>)
    ensures var t := UpdateProduct(s, true, p, name, description, category, content).0;
      && t.cities == s.cities && t.reviewRequired == s.reviewRequired
      && (p in s.products ==> p in t.products && t.products[p].ships == s.products[p].ships)
  {
    hide Text.Strip, ListingSnapshot, SnapshotOf, ContentOf, Moved, Edited;
    if p in s.products {
      EditedShips(s.products[p], name, description, category);
    }
  }

  lemma EditedShips(x: Product, name: Option<string>, description: Option<string>, category: Option<string>)
    ensures Edited(x, name, description, category).ships == x.ships
  {
  }

  // ---------- archived products

  ghost predicate IsArchived(s: Store, p: Id) {
    p in s.products && s.products[p].status == Archived
  }

  /** The call publishes a draft of the product, which has not been approved as it is, so that it is queued
      for review and published again. */
  predicate BringsBack(s: Store, cmd: Command, p: Id) {
    && cmd.DoPublish? && MayPublish(s, cmd.permitted, cmd.offering) && s.offerings[cmd.offering].product == p
    && p in s.products && s.reviewRequired && s.products[p].review != Live
    && ApprovedVersions(s, s.products[p].plugin) == 1
  }

  /** An archived product is brought back by exactly one call: the publication of a draft of it, while review
      is required and the product is not live. */
  lemma ArchivedStep(s: Store, cmd: Command, p: Id)
    requires Inv(s) && IsArchived(s, p)
    ensures IsArchived(Apply(s, cmd).0, p) <==> !BringsBack(s, cmd, p)
  {
    hide Text.Strip, Submit, UpdateProduct, PublishOffering, SuspendVendor, CreateProduct, ArchiveProduct,
         ApproveProduct, RejectProduct, ApprovedVersions, Inv;
    NextId(s);
    match cmd
    case DoCreateProduct(permitted, valid, vendor, plugin, ships, name, description, category, content) =>
      CreateSpares(s, permitted, valid, vendor, plugin, ships, name, description, category, content);
    case DoSubmit(permitted, valid, vendor, product, ships, name, description, category, content, places) =>
      SubmitSpares(s, permitted, valid, vendor, product, ships, name, description, category, content, places, p);
    case DoUpdate(permitted, q, name, description, category, content) =>
      EditSpares(s, permitted, q, name, description, category, content, p);
    case DoArchive(permitted, q) => ArchiveExactly(s, permitted, q);
    case DoPublish(permitted, k) => PublishBringsBack(s, permitted, k, p);
    case DoApprove(operator, q) => VerdictSpares(s, operator, q, "", p);
    case DoReject(operator, q, reason) => VerdictSpares(s, operator, q, reason, p);
    case DoSuspendVendor(operator, vendor, reason) => SuspendSpares(s, operator, vendor, reason);
    case _ =>
  }

  lemma NextId(s: Store)
    requires Inv(s)
    ensures s.nextId !in s.products
  {
  }

  lemma CreateSpares(s: Store, permitted: bool, valid: bool, vendor: Id, plugin: Option<Id>, ships: bool, name: string,
                     description: string, category: string, content: Content)
    requires s.nextId !in s.products
    ensures var t := CreateProduct(s, permitted, valid, vendor, plugin, ships, name, description, category, content).0;
      forall p | p in s.products :: p in t.products && t.products[p] == s.products[p]
  {
    hide Text.Strip;
  }

  lemma SubmitSpares(s: Store, permitted: bool, valid: bool, vendor: Id, product: Option<Id>, ships: bool, name: string,
                     description: string, category: string, content: Content, places: set<Id>, p: Id)
    requires s.nextId !in s.products && IsArchived(s, p)
    ensures IsArchived(Submit(s, permitted, valid, vendor, product, ships, name, description, category, content,
                              places).0, p)
  {
    hide Text.Strip, Standards;
  }

  lemma EditSpares(s: Store, permitted: bool, q: Id, name: Option<string>, description: Option<string>,
                   category: Option<string>, content: Option<Content>, p: Id)
    requires IsArchived(s, p)
    ensures IsArchived(UpdateProduct(s, permitted, q, name, description, category, content).0, p)
  {
    UpdateExactly(s, permitted, q, name, description, category, content);
    hide UpdateProduct, NeedsReview, MovedOnly;
    if q in s.products {
      UpdateFrame(s, permitted, q, name, description, category, content);
    }
  }

  lemma PublishBringsBack(s: Store, permitted: bool, k: Id, p: Id)
    requires IsArchived(s, p)
    ensures IsArchived(PublishOffering(s, permitted, k).0, p) <==> !BringsBack(s, DoPublish(permitted, k), p)
  {
    hide ApprovedVersions;
  }

  lemma VerdictSpares(s: Store, operator: bool, q: Id, reason: string, p: Id)
    requires IsArchived(s, p)
    ensures IsArchived(ApproveProduct(s, operator, q).0, p) && IsArchived(RejectProduct(s, operator, q, reason).0, p)
  {
    hide Text.Strip, Moved;
  }

  lemma SuspendSpares(s: Store, operator: bool, vendor: Id, reason: string)
    ensures SuspendVendor(s, operator, vendor, reason).0.products == s.products
  {
    hide Text.Strip;
  }

  ghost predicate BroughtBack(s: Store, cmds: seq<Command>, p: Id) {
    exists i | 0 <= i < |cmds| :: BringsBack(Run(s, cmds[..i]), cmds[i], p)
  }

  lemma {:induction false} RunInv(s: Store, cmds: seq<Command>)
    requires Inv(s)
    ensures Inv(Run(s, cmds))
    decreases |cmds|
  {
    hide Inv, Apply;
    if cmds != [] {
      RunInv(s, cmds[..|cmds| - 1]);
      StepKeeps(Run(s, cmds[..|cmds| - 1]), cmds[|cmds| - 1]);
    }
  }

  /** As long as no call brings it back an archived product stays archived, and nothing of it is shown. */
  lemma {:induction false} ArchivedStays(s: Store, cmds: seq<Command>, p: Id)
    requires Inv(s) && IsArchived(s, p) && !BroughtBack(s, cmds, p)
    ensures IsArchived(Run(s, cmds), p) && forall card | card in Catalog(Run(s, cmds)) :: card.product != p
    decreases |cmds|
  {
    hide Inv, Apply, BringsBack;
    if cmds != [] {
      var prior := cmds[..|cmds| - 1];
      assert forall i | 0 <= i < |prior| :: prior[..i] == cmds[..i];
      ArchivedStays(s, prior, p);
      RunInv(s, prior);
      ArchivedStep(Run(s, prior), cmds[|cmds| - 1], p);
    }
    NoCards(Run(s, cmds), p);
  }

  lemma NoCards(s: Store, p: Id)
    requires IsArchived(s, p)
    ensures forall card | card in Catalog(s) :: card.product != p
  {
  }

  // A product archived and on sale again, with review required throughout.
  const RETURNED := [
    DoVerifyVendor(7), DoApproveVersion(8),
    DoCreateProduct(true, true, 7, Some(8), false, "Backup", "", "", NO_CONTENT),
    DoCreateOffering(true, 0, "Basic", "monthly", 5), DoArchive(true, 0), DoPublish(true, 1), DoApprove(true, 0)]

  lemma OneMoreCall(n: nat)
    requires n < |RETURNED|
    ensures Run(EMPTY, RETURNED[..n + 1]) == Apply(Run(EMPTY, RETURNED[..n]), RETURNED[n]).0
  {
    hide Apply;
    assert RETURNED[..n + 1][..n] == RETURNED[..n];
  }

  lemma Drafted()
    ensures Run(EMPTY, RETURNED[..4]) == LISTED.(reviewRequired := true)
  {
    hide Run;
    SameStart();
    Created();
    OneMoreCall(3);
  }

  lemma SameStart()
    ensures SWITCHED[..3] == RETURNED[..3]
  {
    assert SWITCHED[0] == RETURNED[0] && SWITCHED[1] == RETURNED[1] && SWITCHED[2] == RETURNED[2];
  }

  lemma ArchivedDraft()
    ensures ArchiveProduct(LISTED.(reviewRequired := true), true, 0).0 ==
            LISTED.(reviewRequired := true, products := map[0 := BACKUP.(status := Archived)])
  {
    var t := ArchiveProduct(LISTED.(reviewRequired := true), true, 0).0;
    assert t.products == map[0 := BACKUP.(status := Archived)];
    assert t.offerings == LISTED.offerings;
  }

  /** An archived product comes back: its draft is published, which queues it for review, and the approval
      puts it on sale. */
  lemma ArchivedReturns()
    ensures IsArchived(Run(EMPTY, RETURNED[..5]), 0)
    ensures var z := Run(EMPTY, RETURNED);
      z.reviewRequired && Card(1, 0, "Backup", "", "Basic", 5) in Catalog(z)
  {
    hide Run, Apply, Catalog;
    assert Run(EMPTY, RETURNED[..5]) == LISTED.(reviewRequired := true, products := map[0 := GONE]) by {
      Drafted();
      ArchivedDraft();
      OneMoreCall(4);
      Archiving(Run(EMPTY, RETURNED[..4]));
    }
    OneMoreCall(5);
    OneMoreCall(6);
    Queued(Run(EMPTY, RETURNED[..5]));
    Approved(Run(EMPTY, RETURNED[..6]));
    assert RETURNED[..7] == RETURNED;
  }

  const GONE := BACKUP.(status := Archived)

  lemma Archiving(s: Store)
    ensures Apply(s, RETURNED[4]) == ArchiveProduct(s, true, 0)
  {
    hide ArchiveProduct;
  }

  lemma Queued(s: Store)
    requires s == LISTED.(reviewRequired := true, products := map[0 := GONE])
    ensures Apply(s, RETURNED[5]).0 ==
            s.(products := map[0 := GONE.(status := Published, review := PendingReview)])
  {
    assert Apply(s, RETURNED[5]) == PublishOffering(s, true, 1);
    assert s.products[0 := GONE.(status := Published, review := PendingReview)]
        == map[0 := GONE.(status := Published, review := PendingReview)];
  }

  lemma Approved(t: Store)
    requires t.reviewRequired && 0 in t.products && !t.products[0].ships && t.products[0].name == "Backup"
    requires t.products[0].category == "" && t.products[0].status == Published && t.products[0].review == PendingReview
    requires 1 in t.offerings && t.offerings[1] == Offering(0, "Basic", 5, DraftOffering)
    ensures var z := Apply(t, RETURNED[6]).0;
      z.reviewRequired && Card(1, 0, "Backup", "", "Basic", 5) in Catalog(z)
  {
    var z := ApproveProduct(t, true, 0).0;
    assert Apply(t, RETURNED[6]).0 == z;
    ApprovalSells(t, 0, 1);
    assert CardOf(z, 1) == Card(1, 0, "Backup", "", "Basic", 5);
  }
}
