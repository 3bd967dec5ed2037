/** What buyers see is what an operator approved, over every run of listing calls. */
module ListingLaws {
  import opened Errors
  import opened Listings
  import Text

  // ---------- the invariant

  ghost predicate IdsOk(n: Id, products: map<Id, Product>, contents: map<Id, Content>, offerings: map<Id, Offering>) {
    && (forall p | p in products :: p < n)
    && (forall p | p in contents :: p in products)
    && (forall k | k in offerings :: k < n && offerings[k].product in products)
  }

  /** A published offering's product is no draft and has been submitted to review. */
  ghost predicate PublishedOk(products: map<Id, Product>, offerings: map<Id, Offering>) {
    forall k | k in offerings && offerings[k].status == PublishedOffering && offerings[k].product in products ::
      Submitted(products[offerings[k].product])
  }

  predicate Submitted(x: Product) {
    x.status != Draft && x.review != NotSubmitted
  }

  /** The product is live only with the snapshot that an operator last approved. */
  predicate Reviewed(s: Store, p: Id) {
    p in s.products && s.products[p].review == Live ==> p in s.approved && s.approved[p] == SnapshotOf(s, p)
  }

  ghost predicate AllReviewed(s: Store) {
    forall p | p in s.products :: Reviewed(s, p)
  }

  ghost predicate Inv(s: Store) {
    IdsOk(s.nextId, s.products, s.contents, s.offerings) && PublishedOk(s.products, s.offerings)
  }

  lemma EmptyOk()
    ensures Inv(EMPTY) && AllReviewed(EMPTY)
  {
  }

  /** No offering is published that was not before, unless its product has been submitted to review. */
  lemma OfferingsKeep(s: Store, offerings: map<Id, Offering>)
    requires Inv(s) && offerings.Keys == s.offerings.Keys
    requires forall k | k in offerings :: offerings[k].product == s.offerings[k].product
    requires forall k | k in offerings && offerings[k].status == PublishedOffering
        && s.offerings[k].status != PublishedOffering ::
               s.offerings[k].product in s.products && Submitted(s.products[s.offerings[k].product])
    ensures Inv(s.(offerings := offerings))
  {
  }

  lemma ProductKeeps(s: Store, p: Id, x: Product, contents: map<Id, Content>)
    requires Inv(s) && p in s.products && (Submitted(s.products[p]) ==> Submitted(x))
    requires contents.Keys <= s.contents.Keys + {p}
    ensures Inv(s.(products := s.products[p := x], contents := contents))
  {
  }

  lemma NewProductKeeps(s: Store, x: Product, content: Content)
    requires Inv(s)
    ensures Inv(s.(nextId := s.nextId + 1, products := s.products[s.nextId := x],
                   contents := s.contents[s.nextId := content]))
    ensures s.nextId !in s.products && s.nextId !in s.contents && Standards(s.offerings, s.nextId) == {}
  {
  }

  lemma NewOfferingKeeps(s: Store, o: Offering)
    requires Inv(s) && o.product in s.products && o.status != PublishedOffering
    ensures Inv(s.(nextId := s.nextId + 1, offerings := s.offerings[s.nextId := o]))
  {
  }

  lemma MovedKeeps(s: Store, p: Id, from: set<OfferingStatus>, to: OfferingStatus)
    requires Inv(s)
    requires to == PublishedOffering ==> p in s.products && Submitted(s.products[p])
    ensures Inv(s.(offerings := Moved(s.offerings, p, from, to)))
  {
    hide Inv;
    OfferingsKeep(s, Moved(s.offerings, p, from, to));
  }

  lemma StandardKeeps(s: Store, p: Id, price: Price)
    requires Inv(s) && p in s.products
    ensures Inv(WithStandard(s, p, price))
  {
    hide Inv;
    if Standards(s.offerings, p) == {} {
      NewOfferingKeeps(s, Offering(p, STANDARD, price, DraftOffering));
    } else {
      OfferingsKeep(s, WithStandard(s, p, price).offerings);
    }
  }

  /** The product of a submission, before its offering. */
  lemma SubmitShape(s: Store, permitted: bool, valid: bool, vendor: Id, product: Option<Id>, ships: bool, name: string,
                    description: string, category: string, content: Content, places: set<Id>)
    requires Inv(s)
    ensures var (t, out) := Submit(s, permitted, valid, vendor, product, ships, name, description, category, content,
                                   places);
      if out != Done then t == s
      else
        var p := if product.Some? then product.value else s.nextId;
        && (product.Some? ==> p in s.products) && (product.None? ==> p !in s.products)
        && p in t.products && t.products[p].review == PendingReview
        && t.products == s.products[p := t.products[p]] && t.contents == s.contents[p := content]
        && t.approved == s.approved && t.reviewRequired == s.reviewRequired
  {
    hide Text.Strip, Standards;
    assert s.nextId !in s.products;
  }

  lemma SubmitKeeps(s: Store, permitted: bool, valid: bool, vendor: Id, product: Option<Id>, ships: bool, name: string,
                    description: string, category: string, content: Content, places: set<Id>)
    requires Inv(s)
    ensures Inv(Submit(s, permitted, valid, vendor, product, ships, name, description, category, content, places).0)
  {
    hide Inv, WithStandard, Text.Strip, Standards;
    var (t, out) := Submit(s, permitted, valid, vendor, product, ships, name, description, category, content, places);
    if out == Done {
      var p := if product.Some? then product.value else s.nextId;
      var plugin := if product.Some? then s.products[product.value].plugin else None;
      var x := Product(vendor, plugin, ships, Published, PendingReview, Text.Strip(name), Text.Strip(description),
                       Text.Strip(category));
      var before := s.(nextId := if product.Some? then s.nextId else s.nextId + 1,
                       products := s.products[p := x], contents := s.contents[p := content]);
      if product.Some? {
        ProductKeeps(s, p, x, s.contents[p := content]);
      } else {
        NewProductKeeps(s, x, content);
      }
      var cities := if ships then s.cities[p := places] else s.cities;
      CitiesFree(before, cities);
      StandardKeeps(before.(cities := cities), p, content.mrp);
    }
  }

  lemma CitiesFree(s: Store, cities: map<Id, set<Id>>)
    requires Inv(s)
    ensures Inv(s.(cities := cities))
  {
  }

  lemma UpdateKeeps(s: Store, permitted: bool, p: Id, name: Option<string>, description: Option<string>,
                    category: Option<string>, content: Option<Content>)
    requires Inv(s)
    ensures Inv(UpdateProduct(s, permitted, p, name, description, category, content).0)
  {
    hide Inv, Moved, Text.Strip;
    var (t, out) := UpdateProduct(s, permitted, p, name, description, category, content);
    if out == Done {
      ProductKeeps(s, p, t.products[p], t.contents);
      MovedKeeps(s.(products := t.products, contents := t.contents), p, {PublishedOffering}, DraftOffering);
    }
  }

  lemma OperatorKeeps(s: Store, cmd: Command)
    requires Inv(s) && (cmd.DoApprove? || cmd.DoReject?)
    ensures Inv(Apply(s, cmd).0)
  {
    hide Inv, Moved, Text.Strip, Submit, UpdateProduct, PublishOffering, SuspendVendor, CreateProduct, CreateOffering;
    var (t, out) := Apply(s, cmd);
    if out == Done {
      var p := cmd.product;
      ProductKeeps(s, p, t.products[p], s.contents);
      var u := s.(products := t.products);
      if cmd.DoApprove? {
        MovedKeeps(u, p, {DraftOffering}, PublishedOffering);
        ApprovedFree(u.(offerings := t.offerings), t.approved);
      } else {
        MovedKeeps(u, p, {PublishedOffering, DraftOffering}, Unpublished);
      }
    }
  }

  lemma ApprovedFree(s: Store, approved: map<Id, Snapshot>)
    requires Inv(s)
    ensures Inv(s.(approved := approved))
  {
  }

  lemma PublishShape(s: Store, permitted: bool, k: Id)
    ensures var (t, out) := PublishOffering(s, permitted, k);
      if out != Done then t == s
      else
        && k in s.offerings && s.offerings[k].product in s.products
        && var p := s.offerings[k].product;
           && p in t.products && t.products[p].review != NotSubmitted
               && (s.products[p].status != Draft ==> t.products[p].status != Draft)
           && t == s.(products := s.products[p := t.products[p]], offerings := t.offerings)
           && (t.offerings == s.offerings
               || (t.products[p].status != Draft
                   && t.offerings == s.offerings[k := s.offerings[k].(status := PublishedOffering)]))
  {
    hide ApprovedVersions;
  }

  lemma PublishKeeps(s: Store, permitted: bool, k: Id)
    requires Inv(s)
    ensures Inv(PublishOffering(s, permitted, k).0)
  {
    PublishShape(s, permitted, k);
    hide Inv, PublishOffering;
    var (t, out) := PublishOffering(s, permitted, k);
    if out == Done {
      var p := s.offerings[k].product;
      ProductKeeps(s, p, t.products[p], s.contents);
      OfferingsKeep(s.(products := t.products), t.offerings);
    }
  }

  lemma SuspendKeeps(s: Store, operator: bool, vendor: Id, reason: string)
    requires Inv(s)
    ensures Inv(SuspendVendor(s, operator, vendor, reason).0)
  {
    hide Text.Strip;
  }

  lemma ArchiveKeeps(s: Store, permitted: bool, p: Id)
    requires Inv(s)
    ensures Inv(ArchiveProduct(s, permitted, p).0)
  {
    hide Inv, Moved;
    if ArchiveProduct(s, permitted, p).1 == Done {
      ProductKeeps(s, p, s.products[p].(status := Archived), s.contents);
      MovedKeeps(s.(products := s.products[p := s.products[p].(status := Archived)]), p, {PublishedOffering},
                 Unpublished);
    }
  }

  lemma SmallStepKeeps(s: Store, cmd: Command)
    requires Inv(s)
    requires cmd.DoVerifyVendor? || cmd.DoApproveVersion? || cmd.DoSetReview? || cmd.DoSetCities? || cmd.DoDeleteCity?
        || cmd.DoReinstateVendor?
             || cmd.DoResubmit? || cmd.DoUpdatePrice? || cmd.DoCreateOffering?
    ensures Inv(Apply(s, cmd).0)
  {
    hide Text.Strip, Submit, UpdateProduct, PublishOffering, SuspendVendor, CreateProduct, ApproveProduct,
         RejectProduct, ArchiveProduct;
  }

  lemma StepKeeps(s: Store, cmd: Command)
    requires Inv(s)
    ensures Inv(Apply(s, cmd).0)
  {
    hide Inv, Submit, UpdateProduct, PublishOffering, SuspendVendor, ArchiveProduct, Text.Strip;
    match cmd
    case DoCreateProduct(permitted, valid, vendor, plugin, ships, name, description, category, content) =>
      NewProductKeeps(s, Product(vendor, plugin, ships, Draft, NotSubmitted, Text.Strip(name), Text.Strip(description),
                                 Text.Strip(category)), content);
    case DoSubmit(permitted, valid, vendor, product, ships, name, description, category, content, places) =>
      SubmitKeeps(s, permitted, valid, vendor, product, ships, name, description, category, content, places);
    case DoUpdate(permitted, p, name, description, category, content) =>
      UpdateKeeps(s, permitted, p, name, description, category, content);
    case DoArchive(permitted, p) => ArchiveKeeps(s, permitted, p);
    case DoPublish(permitted, k) => PublishKeeps(s, permitted, k);
    case DoApprove(_, _) => OperatorKeeps(s, cmd);
    case DoReject(_, _, _) => OperatorKeeps(s, cmd);
    case DoSuspendVendor(operator, vendor, reason) => SuspendKeeps(s, operator, vendor, reason);
    case _ => SmallStepKeeps(s, cmd);
  }

  // ---------- review

  /** The product's review state, texts and content, and the approval of it, are as they were. */
  lemma SameReviewed(s: Store, t: Store, p: Id)
    requires Reviewed(s, p) && p in s.products && p in t.products
    requires t.products[p].review == s.products[p].review || t.products[p].review != Live
    requires t.products[p].review == Live ==>
               SnapshotOf(t, p) == SnapshotOf(s, p)
                   && (p in s.approved ==> p in t.approved && t.approved[p] == s.approved[p])
    ensures Reviewed(t, p)
  {
  }

  /** The fields given differ from what the listing shows now. */
  predicate Changes(s: Store, p: Id, name: Option<string>, description: Option<string>, category: Option<string>,
                    content: Option<Content>)
    requires p in s.products
  {
    var x, shown := s.products[p], ContentOf(s.contents, p);
    || (name.Some? && Text.Strip(name.value) != "" && Text.Strip(name.value) != x.name)
    || (description.Some? && Text.Strip(description.value) != x.description)
    || (category.Some? && Text.Strip(category.value) != x.category)
    || (content.Some? && !SameShown(content.value, shown))
  }

  predicate SameShown(a: Content, b: Content) {
    a.sku == b.sku && a.brand == b.brand && a.netWeight == b.netWeight && a.mrp == b.mrp && a.images == b.images
  }

  lemma UpdateReviewed(s: Store, permitted: bool, p: Id, name: Option<string>, description: Option<string>,
                       category: Option<string>, content: Option<Content>, q: Id)
    requires Inv(s) && Reviewed(s, q) && q in s.products
    requires s.reviewRequired || p != q || !Unreviewed(s, DoUpdate(permitted, p, name, description, category, content))
    ensures Reviewed(UpdateProduct(s, permitted, p, name, description, category, content).0, q)
  {
    hide Inv, Text.Strip, Moved, Reviewed, ListingSnapshot, Edited, UpdateProduct, Changes;
    var (t, out) := UpdateProduct(s, permitted, p, name, description, category, content);
    if p !in s.products {
      assert t == s by { UnknownUpdate(s, permitted, p, name, description, category, content); }
    } else if p == q {
      UpdatedSnapshot(s, permitted, p, name, description, category, content);
    } else {
      UpdateSpares(s, permitted, p, name, description, category, content, q);
    }
    SameReviewed(s, t, q);
  }

  lemma UnknownUpdate(s: Store, permitted: bool, p: Id, name: Option<string>, description: Option<string>,
                      category: Option<string>, content: Option<Content>)
    requires p !in s.products
    ensures UpdateProduct(s, permitted, p, name, description, category, content).0 == s
  {
  }

  lemma UpdateSpares(s: Store, permitted: bool, p: Id, name: Option<string>, description: Option<string>,
                     category: Option<string>, content: Option<Content>, q: Id)
    requires p in s.products && q in s.products && p != q
    ensures var t := UpdateProduct(s, permitted, p, name, description, category, content).0;
      && t.approved == s.approved && q in t.products && t.products[q] == s.products[q]
      && ContentOf(t.contents, q) == ContentOf(s.contents, q)
  {
    hide UpdateProduct, ContentOf;
    UpdateFrame(s, permitted, p, name, description, category, content);
    OtherContent(s.contents, p, content, q);
  }

  lemma UpdateFrame(s: Store, permitted: bool, p: Id, name: Option<string>, description: Option<string>,
                    category: Option<string>, content: Option<Content>)
    requires p in s.products
    ensures var t := UpdateProduct(s, permitted, p, name, description, category, content).0;
      && t.approved == s.approved && p in t.products && t.products == s.products[p := t.products[p]]
      && (t.contents == s.contents || (content.Some? && t.contents == s.contents[p := content.value]))
  {
    hide Moved, ListingSnapshot, Edited, SnapshotOf, ContentOf;
    if !permitted || s.products[p].status == Archived {
      assert s.products == s.products[p := s.products[p]];
      return;
    }
    var edited := Edited(s.products[p], name, description, category);
    var t := UpdateProduct(s, permitted, p, name, description, category, content).0;
    assert t.products == s.products[p := edited.(review := PendingReview)] || t.products == s.products[p := edited];
  }

  lemma OtherContent(contents: map<Id, Content>, p: Id, content: Option<Content>, q: Id)
    requires p != q
    ensures content.Some? ==> ContentOf(contents[p := content.value], q) == ContentOf(contents, q)
  {
  }

  /** What an edit does to what the listing shows. */
  lemma UpdatedSnapshot(s: Store, permitted: bool, p: Id, name: Option<string>, description: Option<string>,
                        category: Option<string>, content: Option<Content>)
    requires p in s.products
    ensures var t := UpdateProduct(s, permitted, p, name, description, category, content).0;
      && t.approved == s.approved && p in t.products
      && (t.products[p].review == Live ==> s.products[p].review == Live)
      && (SnapshotOf(t, p) == SnapshotOf(s, p)
          <==> !permitted || s.products[p].status == Archived || !Changes(s, p, name, description, category, content))
      && (if s.reviewRequired then t.products[p].review == Live ==> SnapshotOf(t, p) == SnapshotOf(s, p)
          else t.products[p].review == s.products[p].review)
  {
    hide UpdateProduct, ListingSnapshot, Changes;
    if !permitted || s.products[p].status == Archived {
      assert UpdateProduct(s, permitted, p, name, description, category, content).0 == s by {
        RefusedUpdate(s, permitted, p, name, description, category, content);
      }
    } else {
      AcceptedUpdate(s, p, name, description, category, content);
      EditChanges(s, p, name, description, category, content);
      hide Edited;
      var contents := if content.Some? then s.contents[p := content.value] else s.contents;
      SameFields(Edited(s.products[p], name, description, category), PendingReview, ContentOf(contents, p));
    }
  }

  lemma RefusedUpdate(s: Store, permitted: bool, p: Id, name: Option<string>, description: Option<string>,
                      category: Option<string>, content: Option<Content>)
    requires p in s.products && (!permitted || s.products[p].status == Archived)
    ensures UpdateProduct(s, permitted, p, name, description, category, content).0 == s
  {
  }

  lemma AcceptedUpdate(s: Store, p: Id, name: Option<string>, description: Option<string>, category: Option<string>,
                       content: Option<Content>)
    requires p in s.products && s.products[p].status != Archived
    ensures var t := UpdateProduct(s, true, p, name, description, category, content).0;
      var edited := Edited(s.products[p], name, description, category);
      && edited.review == s.products[p].review
      && t.approved == s.approved && p in t.products
      && t.contents == (if content.Some? then s.contents[p := content.value] else s.contents)
      && t.products[p] == if s.reviewRequired && (edited.review == Live || edited.review == Rejected)
                             && ListingSnapshot(edited, ContentOf(t.contents, p)) != SnapshotOf(s, p)
                          then edited.(review := PendingReview) else edited
  {
    EditedReview(s.products[p], name, description, category);
    hide Moved, ListingSnapshot, Edited, ContentOf, SnapshotOf;
    var edited := Edited(s.products[p], name, description, category);
    var contents := if content.Some? then s.contents[p := content.value] else s.contents;
    var t := UpdateProduct(s, true, p, name, description, category, content).0;
    if s.reviewRequired && (edited.review == Live || edited.review == Rejected)
       && ListingSnapshot(edited, ContentOf(contents, p)) != SnapshotOf(s, p) {
      assert t.products[p] == edited.(review := PendingReview);
    } else {
      assert t.products[p] == edited;
    }
  }

  lemma SameFields(x: Product, review: Review, content: Content)
    ensures ListingSnapshot(x.(review := review), content) == ListingSnapshot(x, content)
  {
  }

  lemma EditChanges(s: Store, p: Id, name: Option<string>, description: Option<string>, category: Option<string>,
                    content: Option<Content>)
    requires p in s.products
    ensures var contents := if content.Some? then s.contents[p := content.value] else s.contents;
      ListingSnapshot(Edited(s.products[p], name, description, category), ContentOf(contents, p)) == SnapshotOf(s, p)
      <==> !Changes(s, p, name, description, category, content)
  {
    hide Text.Strip;
  }

  lemma EditedReview(product: Product, name: Option<string>, description: Option<string>, category: Option<string>)
    ensures Edited(product, name, description, category).review == product.review
  {
    hide Text.Strip;
  }

  lemma SubmitReviewed(s: Store, permitted: bool, valid: bool, vendor: Id, product: Option<Id>, ships: bool,
                       name: string, description: string, category: string, content: Content, places: set<Id>, q: Id)
    requires Inv(s) && (q in s.products ==> Reviewed(s, q))
    ensures Reviewed(Submit(s, permitted, valid, vendor, product, ships, name, description, category, content,
                            places).0, q)
  {
    SubmitShape(s, permitted, valid, vendor, product, ships, name, description, category, content, places);
    hide Inv, Submit;
  }

  lemma PublishReviewed(s: Store, permitted: bool, k: Id, q: Id)
    requires Reviewed(s, q) && q in s.products
    requires s.reviewRequired || k !in s.offerings || s.offerings[k].product != q
        || !Unreviewed(s, DoPublish(permitted, k))
    ensures Reviewed(PublishOffering(s, permitted, k).0, q)
  {
    hide ApprovedVersions;
  }

  lemma SmallReviewed(s: Store, cmd: Command, q: Id)
    requires Reviewed(s, q) && q in s.products
    requires !cmd.DoCreateProduct? && !cmd.DoSubmit? && !cmd.DoUpdate? && !cmd.DoPublish?
    ensures Reviewed(Apply(s, cmd).0, q)
  {
    hide Text.Strip, Submit, UpdateProduct, PublishOffering, CreateProduct, Moved;
  }

  predicate MayPublish(s: Store, permitted: bool, k: Id) {
    k in s.offerings && s.offerings[k].product in s.products && permitted && s.offerings[k].status == DraftOffering
  }

  /** The calls that make a listing live, or keep it live, as nobody has approved it. Both need review to
      be switched off: an edit of what a live listing shows, and the publication of a product that does
      not show what was last approved. */
  predicate Unreviewed(s: Store, cmd: Command) {
    && !s.reviewRequired
    && match cmd
       case DoUpdate(permitted, p, name, description, category, content) =>
         && permitted && p in s.products && s.products[p].status != Archived && s.products[p].review == Live
         && Changes(s, p, name, description, category, content)
       case DoPublish(permitted, k) =>
         && MayPublish(s, permitted, k) && ApprovedVersions(s, s.products[s.offerings[k].product].plugin) == 1
         && var p := s.offerings[k].product; !(p in s.approved && s.approved[p] == SnapshotOf(s, p))
       case _ => false
  }

  /** Exactly which calls keep that every live listing shows what was last approved: all but those. */
  lemma ReviewedExactly(s: Store, cmd: Command)
    requires Inv(s) && AllReviewed(s)
    ensures AllReviewed(Apply(s, cmd).0) <==> !Unreviewed(s, cmd)
  {
    hide Inv, Reviewed, Submit, UpdateProduct, PublishOffering, CreateProduct, ApproveProduct, RejectProduct,
         ArchiveProduct, SuspendVendor, Resubmit, CreateOffering, UpdatePrice, SetCities, ReinstateVendor, Changes;
    if Unreviewed(s, cmd) {
      UnreviewedBreaks(s, cmd);
    } else {
      var t := Apply(s, cmd).0;
      forall q | q in t.products ensures Reviewed(t, q) {
        ReviewKept(s, cmd, q);
      }
    }
  }

  /** While review is required every live listing goes on showing what was last approved. */
  lemma ReviewStep(s: Store, cmd: Command)
    requires Inv(s) && AllReviewed(s) && s.reviewRequired
    ensures AllReviewed(Apply(s, cmd).0)
  {
    hide Inv, AllReviewed, Apply;
    ReviewedExactly(s, cmd);
  }

  lemma UnreviewedBreaks(s: Store, cmd: Command)
    requires AllReviewed(s) && Unreviewed(s, cmd)
    ensures !AllReviewed(Apply(s, cmd).0)
  {
    if cmd.DoUpdate? {
      assert Reviewed(s, cmd.product);
      UpdatedSnapshot(s, cmd.permitted, cmd.product, cmd.newName, cmd.newDescription, cmd.newCategory, cmd.newContent);
      hide UpdateProduct, Changes;
      assert !Reviewed(Apply(s, cmd).0, cmd.product);
    } else {
      hide ApprovedVersions;
      assert !Reviewed(Apply(s, cmd).0, s.offerings[cmd.offering].product);
    }
  }

  lemma ReviewKept(s: Store, cmd: Command, q: Id)
    requires Inv(s) && AllReviewed(s) && !Unreviewed(s, cmd) && q in Apply(s, cmd).0.products
    ensures Reviewed(Apply(s, cmd).0, q)
  {
    hide Inv, Reviewed, Submit, UpdateProduct, PublishOffering, CreateProduct, ApproveProduct, RejectProduct,
         ArchiveProduct, SuspendVendor, Resubmit, CreateOffering, UpdatePrice, SetCities, ReinstateVendor, Changes,
         Unreviewed;
    match cmd
    case DoCreateProduct(permitted, valid, vendor, plugin, ships, name, description, category, content) =>
      CreateReviewed(s, permitted, valid, vendor, plugin, ships, name, description, category, content, q);
    case DoSubmit(permitted, valid, vendor, product, ships, name, description, category, content, places) =>
      SubmitReviewed(s, permitted, valid, vendor, product, ships, name, description, category, content, places, q);
    case DoUpdate(permitted, p, name, description, category, content) =>
      SameProducts(s, cmd, q);
      UpdateReviewed(s, permitted, p, name, description, category, content, q);
    case DoPublish(permitted, k) =>
      SameProducts(s, cmd, q);
      PublishReviewed(s, permitted, k, q);
    case _ =>
      SameProducts(s, cmd, q);
      SmallReviewed(s, cmd, q);
  }

  lemma CreateReviewed(s: Store, permitted: bool, valid: bool, vendor: Id, plugin: Option<Id>, ships: bool,
                       name: string, description: string, category: string, content: Content, q: Id)
    requires Inv(s) && (q in s.products ==> Reviewed(s, q))
    ensures Reviewed(CreateProduct(s, permitted, valid, vendor, plugin, ships, name, description, category,
                                   content).0, q)
  {
    assert s.nextId !in s.products;
    hide Inv, Text.Strip;
  }

  lemma SameProducts(s: Store, cmd: Command, q: Id)
    requires Inv(s) && !cmd.DoCreateProduct? && !cmd.DoSubmit?
    ensures q in Apply(s, cmd).0.products ==> q in s.products
  {
    hide Inv, Text.Strip, Submit, CreateProduct, Moved, Edited, ListingSnapshot, ContentOf;
  }

  // ---------- runs

  ghost function Run(s: Store, cmds: seq<Command>): Store
    decreases |cmds|
  {
    if cmds == [] then s else Apply(Run(s, cmds[..|cmds| - 1]), cmds[|cmds| - 1]).0
  }

  lemma SwitchStep(s: Store, cmd: Command)
    requires Inv(s) && !cmd.DoSetReview?
    ensures Apply(s, cmd).0.reviewRequired == s.reviewRequired
  {
    hide Inv, Text.Strip, Moved, Edited, ListingSnapshot, ContentOf, Standards;
  }

  lemma {:induction false} ReviewRun(cmds: seq<Command>)
    requires forall i | 0 <= i < |cmds| :: !cmds[i].DoSetReview?
    ensures var z := Run(EMPTY, cmds); Inv(z) && AllReviewed(z) && z.reviewRequired
    decreases |cmds|
  {
    hide Inv, AllReviewed, Apply;
    if cmds == [] {
      EmptyOk();
    } else {
      var prior, last := cmds[..|cmds| - 1], cmds[|cmds| - 1];
      ReviewRun(prior);
      StepKeeps(Run(EMPTY, prior), last);
      ReviewStep(Run(EMPTY, prior), last);
      SwitchStep(Run(EMPTY, prior), last);
    }
  }

  /** While review is required throughout, every card of the catalogue is of a live product, and the
      listing it shows is the one that an operator last approved. */
  lemma CatalogIsReviewed(cmds: seq<Command>, card: Card)
    requires forall i | 0 <= i < |cmds| :: !cmds[i].DoSetReview?
    requires card in Catalog(Run(EMPTY, cmds))
    ensures var z := Run(EMPTY, cmds);
      && card.product in z.products && z.products[card.product].review == Live
      && card.product in z.approved && z.approved[card.product] == SnapshotOf(z, card.product)
      && card.name == z.approved[card.product].name && card.category == z.approved[card.product].category
  {
    ReviewRun(cmds);
    hide Run;
    var z := Run(EMPTY, cmds);
    var k :| k in z.offerings && Shown(z, k) && CardOf(z, k) == card;
    assert Reviewed(z, card.product);
  }

  // Review switched off for one publication and on again.
  const SWITCHED := [
    DoVerifyVendor(7), DoApproveVersion(8),
    DoCreateProduct(true, true, 7, Some(8), false, "Backup", "", "", NO_CONTENT),
    DoCreateOffering(true, 0, "Basic", "monthly", 5), DoSetReview(false), DoPublish(true, 1), DoSetReview(true)]

  lemma OneMore(n: nat)
    requires n < |SWITCHED|
    ensures Run(EMPTY, SWITCHED[..n + 1]) == Apply(Run(EMPTY, SWITCHED[..n]), SWITCHED[n]).0
  {
    hide Apply;
    assert SWITCHED[..n + 1][..n] == SWITCHED[..n];
  }

  const BACKUP := Product(7, Some(8), false, Draft, NotSubmitted, "Backup", "", "")

  const LISTED := Store(2, false, map[7 := true], map[8 := 1], map[0 := BACKUP], map[0 := NO_CONTENT], map[],
                        map[1 := Offering(0, "Basic", 5, DraftOffering)], map[])

  lemma Created()
    ensures Run(EMPTY, SWITCHED[..3]) == LISTED.(nextId := 1, reviewRequired := true, offerings := map[])
  {
    assert Run(EMPTY, SWITCHED[..0]) == EMPTY;
    OneMore(0);
    OneMore(1);
    OneMore(2);
    hide Run;
  }

  lemma Listed()
    ensures Run(EMPTY, SWITCHED[..5]) == LISTED
  {
    hide Run;
    Created();
    OneMore(3);
    OneMore(4);
  }

  lemma PublishedUnseen()
    ensures PublishOffering(LISTED, true, 1)
            == (LISTED.(products := map[0 := BACKUP.(review := Live, status := Published)],
                        offerings := map[1 := Offering(0, "Basic", 5, PublishedOffering)]), Done)
  {
    var t := PublishOffering(LISTED, true, 1).0;
    assert t.products == map[0 := BACKUP.(review := Live, status := Published)];
    assert t.offerings == map[1 := Offering(0, "Basic", 5, PublishedOffering)];
  }

  /** A product that no operator has seen is published while review is off; review is required again
      afterwards, and its card is there. */
  lemma SwitchedOffAndOn()
    ensures var z := Run(EMPTY, SWITCHED);
      && z.reviewRequired && 0 in z.products && z.products[0].review == Live && 0 !in z.approved
      && Card(1, 0, "Backup", "", "Basic", 5) in Catalog(z)
  {
    hide Run, PublishOffering;
    Listed();
    OneMore(5);
    OneMore(6);
    PublishedUnseen();
    assert SWITCHED[..7] == SWITCHED;
    var z := Run(EMPTY, SWITCHED);
    assert z == PublishOffering(LISTED, true, 1).0.(reviewRequired := true);
    assert 1 in z.offerings && Shown(z, 1) && CardOf(z, 1) == Card(1, 0, "Backup", "", "Basic", 5);
  }

  /** Prices are not part of what is reviewed: a new price of a published offering is on its card at
      once, and nothing about the product's review changes. */
  lemma PriceIsNotReviewed(s: Store, k: Id, price: Price)
    requires k in s.offerings && s.offerings[k].product in s.products && Shown(s, k) && price >= 0
    ensures var (t, out) := UpdatePrice(s, true, k, price);
      && out == Done && t.products == s.products && t.approved == s.approved
      && k in t.offerings && Shown(t, k) && CardOf(t, k) in Catalog(t) && CardOf(t, k) == CardOf(s, k).(price := price)
  {
  }

  /** Deleting a city takes away exactly the cards of products that shipped to no other, and adds none. */
  lemma DeletedCity(s: Store, city: Id, k: Id)
    requires k in s.offerings
    ensures var t := DeleteCity(s, true, false, city).0;
      Shown(t, k) <==>
          Shown(s, k) && (s.products[s.offerings[k].product].ships ==> s.cities[s.offerings[k].product] != {city})
  {
    var p := s.offerings[k].product;
    if p in s.cities {
      assert s.cities[p] != {} && s.cities[p] - {city} == {} ==> s.cities[p] == {city};
    }
  }

  ghost predicate HasCard(s: Store, p: Id) {
    exists card | card in Catalog(s) :: card.product == p
  }

  lemma CardIsShown(s: Store, p: Id)
    ensures HasCard(s, p) <==> exists k | k in s.offerings :: Shown(s, k) && s.offerings[k].product == p
  {
    if HasCard(s, p) {
      var card :| card in Catalog(s) && card.product == p;
      var k :| k in s.offerings && Shown(s, k) && CardOf(s, k) == card;
    }
    if k :| k in s.offerings && Shown(s, k) && s.offerings[k].product == p {
      assert CardOf(s, k) in Catalog(s);
    }
  }

  /** When what the vendor is told is true: while review is required a product has a card exactly when it
      is called visible and has a published offering, which a product without service cities has then. */
  lemma VisibleExactly(s: Store, p: Id)
    requires Inv(s) && s.reviewRequired && p in s.products
    ensures HasCard(s, p) <==> VisibilityOf(s, p) == Visible && HasPublished(s.offerings, p)
    ensures !s.products[p].ships ==> (HasCard(s, p) <==> VisibilityOf(s, p) == Visible)
  {
    CardIsShown(s, p);
    if k :| k in s.offerings && s.offerings[k].product == p && s.offerings[k].status == PublishedOffering {
      assert Submitted(s.products[p]);
      assert VisibilityOf(s, p) == Visible ==> Shown(s, k);
    }
  }

  /** A product has a card exactly when it has a published offering and its page is found; the page then
      opens unless the product ships to more than one city, and breaks if it does. */
  lemma CardPage(s: Store, p: Id)
    ensures HasCard(s, p) <==> HasPublished(s.offerings, p) && PageOf(s, p) != Refused(NotFound)
    ensures HasCard(s, p) ==>
              && p in s.products
              && (PageOf(s, p) == Done <==> !s.products[p].ships || |s.cities[p]| == 1)
              && (PageOf(s, p) == Refused(ServerError) <==> s.products[p].ships && |s.cities[p]| > 1)
  {
    CardIsShown(s, p);
    if k :| k in s.offerings && s.offerings[k].product == p && s.offerings[k].status == PublishedOffering {
      assert PageOf(s, p) != Refused(NotFound) ==> Shown(s, k);
    }
    if p in s.cities {
      assert s.cities[p] != {} ==> |s.cities[p]| > 0;
    }
  }

  /** What is sold of a product once it is approved: its offerings that were not taken off sale, if
      it is not archived and has the service cities it needs. */
  predicate ForSale(s: Store, k: Id)
    requires k in s.offerings && s.offerings[k].product in s.products
  {
    var p := s.offerings[k].product;
    && s.offerings[k].status != Unpublished && s.products[p].status != Archived
    && (s.products[p].ships ==> p in s.cities && s.cities[p] != {})
  }

  lemma ApprovalSells(s: Store, p: Id, k: Id)
    requires p in s.products && s.products[p].review == PendingReview && k in s.offerings
    ensures var (t, out) := ApproveProduct(s, true, p);
      && out == Done && k in t.offerings
      && (s.offerings[k].product == p ==> (Shown(t, k) <==> ForSale(s, k)))
      && (s.offerings[k].product != p ==> (Shown(t, k) <==> Shown(s, k)))
  {
  }

  /** The product's one standard offering is a draft at the price given. */
  ghost predicate StandardDraft(offerings: map<Id, Offering>, p: Id, price: Price) {
    && Standards(offerings, p) != {}
    && forall k | k in offerings && offerings[k].product == p && offerings[k].plan == STANDARD ::
         offerings[k] == Offering(p, STANDARD, price, DraftOffering)
  }

  lemma StandardIsDraft(s: Store, p: Id, price: Price)
    requires |Standards(s.offerings, p)| <= 1
    ensures StandardDraft(WithStandard(s, p, price).offerings, p, price)
  {
    var mine, after := Standards(s.offerings, p), WithStandard(s, p, price).offerings;
    if mine == {} {
      assert s.nextId in Standards(after, p);
      forall k | k in after && after[k].product == p && after[k].plan == STANDARD ensures k == s.nextId {
        assert k != s.nextId ==> k in mine;
      }
    } else {
      assert forall k | k in mine :: mine == {k} by {
        forall k | k in mine ensures mine == {k} {
          assert mine == {k} + (mine - {k}) && |mine - {k}| == 0;
        }
      }
      assert after.Keys == s.offerings.Keys && forall k | k in after :: k in Standards(after, p) <==> k in mine;
    }
  }

  /** A submitted listing has no card while it waits for its review. Once it is approved as submitted,
      its standard offering is on sale under the name and category and at the price submitted. */
  lemma SubmittedIsSold(s: Store, vendor: Id, product: Option<Id>, ships: bool, name: string, description: string,
                        category: string, content: Content, places: set<Id>)
    requires Inv(s) && s.reviewRequired
    requires Submit(s, true, true, vendor, product, ships, name, description, category, content, places).1 == Done
    ensures var t := Submit(s, true, true, vendor, product, ships, name, description, category, content, places).0;
      var p := if product.Some? then product.value else s.nextId;
      var (u, out) := ApproveProduct(t, true, p);
      var shown := Product(vendor, None, ships, Published, Live, Text.Strip(name), Text.Strip(description),
                           Text.Strip(category));
      && (forall card | card in Catalog(t) :: card.product != p)
      && out == Done && p in u.approved && u.approved[p] == ListingSnapshot(shown, content)
      && (forall card | card in Catalog(u) && card.product == p && card.plan == STANDARD ::
            card == Card(card.offering, p, shown.name, shown.category, STANDARD, content.mrp))
      && (exists card :: card in Catalog(u) && card.product == p && card.plan == STANDARD)
  {
    hide Text.Strip, Inv, Standards;
    SubmitShape(s, true, true, vendor, product, ships, name, description, category, content, places);
    var t := Submit(s, true, true, vendor, product, ships, name, description, category, content, places).0;
    var p := if product.Some? then product.value else s.nextId;
    SubmittedRow(s, vendor, product, ships, name, description, category, content, places);
    hide StandardDraft;
    assert StandardDraft(t.offerings, p, content.mrp) by {
      var before := s.(nextId := if product.Some? then s.nextId else s.nextId + 1, products := t.products,
                       contents := t.contents, cities := t.cities);
      StandardIsDraft(before, p, content.mrp);
    }
    hide Submit;
    PendingIsSold(t, p, content.mrp);
  }

  lemma SubmittedRow(s: Store, vendor: Id, product: Option<Id>, ships: bool, name: string, description: string,
                     category: string, content: Content, places: set<Id>)
    requires Submit(s, true, true, vendor, product, ships, name, description, category, content, places).1 == Done
    ensures var t := Submit(s, true, true, vendor, product, ships, name, description, category, content, places).0;
      var p := if product.Some? then product.value else s.nextId;
      && p in t.products && (ships ==> p in t.cities && t.cities[p] == places)
      && t.products[p] == Product(vendor, t.products[p].plugin, ships, Published, PendingReview, Text.Strip(name),
                                  Text.Strip(description), Text.Strip(category))
  {
    hide Text.Strip, Standards;
  }

  lemma PendingIsSold(t: Store, p: Id, price: Price)
    requires t.reviewRequired && p in t.products && t.products[p].review == PendingReview
        && t.products[p].status == Published
    requires StandardDraft(t.offerings, p, price)
    ensures var (u, out) := ApproveProduct(t, true, p);
      && (forall card | card in Catalog(t) :: card.product != p)
      && out == Done && p in u.approved && u.approved[p] == SnapshotOf(t, p)
      && (forall card | card in Catalog(u) && card.product == p && card.plan == STANDARD ::
            card == Card(card.offering, p, t.products[p].name, t.products[p].category, STANDARD, price))
      && ((t.products[p].ships ==> p in t.cities && t.cities[p] != {})
          <==> exists card :: card in Catalog(u) && card.product == p && card.plan == STANDARD)
  {
    var u := ApproveProduct(t, true, p).0;
    var k :| k in Standards(t.offerings, p);
    ApprovalSells(t, p, k);
    assert CardOf(u, k).product == p && CardOf(u, k).plan == STANDARD;
    assert ForSale(t, k) ==> CardOf(u, k) in Catalog(u);
  }

  /** A listing rejected, resubmitted and approved is live with nothing for sale: rejection takes its
      drafts off sale too, and approval publishes drafts only. The vendor is
      told all the same that a product with service cities is visible. */
  lemma RejectedStaysUnsold(s: Store, p: Id, reason: string)
    requires p in s.products && s.products[p].review == PendingReview && Text.Strip(reason) != ""
    ensures var a := RejectProduct(s, true, p, reason).0;
      var b := Resubmit(a, true, p).0;
      var (c, out) := ApproveProduct(b, true, p);
      && out == Done && p in c.products && c.products[p].review == Live
      && (forall k | k in c.offerings && c.offerings[k].product == p :: c.offerings[k].status == Unpublished)
      && (forall card | card in Catalog(c) :: card.product != p)
      && (s.products[p].ships && s.products[p].status != Archived && p in s.cities && s.cities[p] != {}
          ==> VisibilityOf(c, p) == Visible)
  {
    hide Text.Strip;
    var a := RejectProduct(s, true, p, reason).0;
    var b := Resubmit(a, true, p).0;
    var c := ApproveProduct(b, true, p).0;
    assert forall k | k in c.offerings && c.offerings[k].product == p :: c.offerings[k].status == Unpublished;
    hide RejectProduct, Resubmit, ApproveProduct;
    forall card | card in Catalog(c) ensures card.product != p {
      var k :| k in c.offerings && Shown(c, k) && CardOf(c, k) == card;
    }
  }

  /** A draft is taken by the publishing call exactly when its plugin has one approved version: with
      none the call is refused, and with two it breaks. */
  lemma PublishExactly(s: Store, permitted: bool, k: Id)
    ensures var (t, out) := PublishOffering(s, permitted, k);
      && (out == Done <==>
          MayPublish(s, permitted, k) && ApprovedVersions(s, s.products[s.offerings[k].product].plugin) == 1)
      && (out == Refused(ServerError) <==>
          MayPublish(s, permitted, k) && ApprovedVersions(s, s.products[s.offerings[k].product].plugin) > 1)
      && (out == Done ==>
            var p := s.offerings[k].product;
            && k in t.offerings && p in t.products
            && (t.offerings[k].status == PublishedOffering <==> (!s.reviewRequired || s.products[p].review == Live))
            && t.products[p].review == if t.offerings[k].status == PublishedOffering then Live else PendingReview)
  {
    hide ApprovedVersions;
  }
}
