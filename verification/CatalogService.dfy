/** The catalogue service: it changes rows in place and is proved against `Listings`. */
module CatalogServices {
  import opened Errors
  import L = Listings
  import opened ListingLaws
  import Text

  type Id = L.Id

  class CatalogService {
    var nextId: Id
    var reviewRequired: bool
    var vendors: map<Id, bool>
    var approvals: map<Id, nat>
    var products: map<Id, L.Product>
    var contents: map<Id, L.Content>
    var cities: map<Id, set<Id>>
    var offerings: map<Id, L.Offering>
    ghost var approved: map<Id, L.Snapshot>

    ghost function State(): L.Store
      reads this
    {
      L.Store(nextId, reviewRequired, vendors, approvals, products, contents, cities, offerings, approved)
    }

    constructor ()
      ensures State() == L.EMPTY && Inv(State()) && AllReviewed(State())
    {
      nextId, reviewRequired, vendors, approvals, products := 0, true, map[], map[], map[];
      contents, cities, offerings, approved := map[], map[], map[], map[];
    }

    /** Moves the product's offerings in the given states one by one, counting them. */
    method MoveOfferings(p: Id, from: set<L.OfferingStatus>, to: L.OfferingStatus) returns (moved: nat)
      modifies this`offerings
      ensures offerings == L.Moved(old(offerings), p, from, to)
      ensures moved == |set k | k in old(offerings) && old(offerings)[k].product == p
          && old(offerings)[k].status in from|
    {
      var rows := set k | k in offerings && offerings[k].product == p && offerings[k].status in from;
      var left := rows;
      moved := 0;
      while left != {}
        invariant left <= rows && moved == |rows| - |left|
        invariant offerings.Keys == old(offerings).Keys
        invariant forall k | k in old(offerings) ::
          offerings[k] == if k in rows && k !in left then old(offerings)[k].(status := to) else old(offerings)[k]
        decreases left
      {
        var k :| k in left;
        offerings := offerings[k := offerings[k].(status := to)];
        left := left - {k};
        moved := moved + 1;
      }
    }

    method SubmitProductListing(permitted: bool, valid: bool, vendor: Id, product: Option<Id>, ships: bool,
                                name: string, description: string, category: string, content: L.Content,
                                places: set<Id>) returns (out: Outcome)
      modifies this
      ensures (State(), out) == L.Submit(old(State()), permitted, valid, vendor, product, ships, name, description,
                                         category, content, places)
    {
      hide Text.Strip, L.WithStandard, L.Standards;
      if !permitted || vendor !in vendors || !vendors[vendor] {
        return Refused(Forbidden);
      }
      if !valid || (ships && places == {}) {
        return Refused(Validation);
      }
      var p := nextId;
      var plugin := None;
      if product.Some? {
        p := product.value;
        if p !in products || products[p].vendor != vendor {
          return Refused(NotFound);
        }
        if products[p].status == L.Archived {
          return Refused(Conflict);
        }
        plugin := products[p].plugin;
      }
      var standards := L.Standards(offerings, p);
      if |standards| > 1 {
        return Refused(ServerError);
      }
      products := products[p := L.Product(vendor, plugin, ships, L.Published, L.PendingReview, Text.Strip(name),
                                          Text.Strip(description),
                                          Text.Strip(category))];
      contents := contents[p := content];
      if ships {
        cities := cities[p := places];
      }
      if product.None? {
        nextId := nextId + 1;
      }
      ResetStandard(p, content.mrp);
      return Done;
    }

    /** The listing's own offering, inserted or put back to a draft at the listing's price. */
    method ResetStandard(p: Id, price: L.Price)
      requires |L.Standards(offerings, p)| <= 1
      modifies this`nextId, this`offerings
      ensures State() == L.WithStandard(old(State()), p, price)
    {
      var standards := L.Standards(offerings, p);
      if standards == {} {
        offerings := offerings[nextId := L.Offering(p, L.STANDARD, price, L.DraftOffering)];
        nextId := nextId + 1;
      } else {
        var k :| k in standards;
        Single(standards, k);
        offerings := offerings[k := offerings[k].(price := price, status := L.DraftOffering)];
      }
    }

    lemma Single(s: set<Id>, k: Id)
      requires k in s && |s| <= 1
      ensures s == {k}
    {
      assert |s - {k}| == |s| - 1;
      assert s == (s - {k}) + {k};
    }

    method ResubmitProduct(permitted: bool, p: Id) returns (out: Outcome)
      modifies this`products
      ensures (State(), out) == L.Resubmit(old(State()), permitted, p)
    {
      if p !in products {
        return Refused(NotFound);
      }
      if !permitted {
        return Refused(Forbidden);
      }
      if products[p].review != L.Rejected {
        return Refused(Conflict);
      }
      products := products[p := products[p].(review := L.PendingReview)];
      return Done;
    }

    method UpdateProduct(permitted: bool, p: Id, name: Option<string>, description: Option<string>,
                         category: Option<string>, content: Option<L.Content>) returns (out: Outcome)
      requires Inv(State())
      modifies this`products, this`contents, this`offerings
      ensures (State(), out) == L.UpdateProduct(old(State()), permitted, p, name, description, category, content)
      ensures Inv(State())
    {
      hide Text.Strip, Inv, L.Moved, L.Edited, L.ListingSnapshot, L.ContentOf;
      UpdateKeeps(State(), permitted, p, name, description, category, content);
      if p !in products {
        return Refused(NotFound);
      }
      if !permitted {
        return Refused(Forbidden);
      }
      if products[p].status == L.Archived {
        return Refused(Conflict);
      }
      var prior := L.ListingSnapshot(products[p], L.ContentOf(contents, p));
      var product := Edit(products[p], name, description, category);
      if content.Some? {
        contents := contents[p := content.value];
      }
      if reviewRequired && (product.review == L.Live || product.review == L.Rejected) {
        if L.ListingSnapshot(product, L.ContentOf(contents, p)) != prior {
          product := product.(review := L.PendingReview);
          var moved := MoveOfferings(p, {L.PublishedOffering}, L.DraftOffering);
        }
      }
      products := products[p := product];
      return Done;
    }

    method Edit(before: L.Product, name: Option<string>, description: Option<string>,
                category: Option<string>) returns (product: L.Product)
      ensures product == L.Edited(before, name, description, category)
    {
      hide Text.Strip;
      product := before;
      if name.Some? && Text.Strip(name.value) != "" {
        product := product.(name := Text.Strip(name.value));
      }
      if description.Some? {
        product := product.(description := Text.Strip(description.value));
      }
      if category.Some? {
        product := product.(category := Text.Strip(category.value));
      }
    }

    method ArchiveProduct(permitted: bool, p: Id) returns (out: Outcome)
      modifies this`products, this`offerings
      ensures (State(), out) == L.ArchiveProduct(old(State()), permitted, p)
    {
      hide L.Moved;
      if p !in products {
        return Refused(NotFound);
      }
      if !permitted {
        return Refused(Forbidden);
      }
      if products[p].status == L.Archived {
        return Refused(Conflict);
      }
      products := products[p := products[p].(status := L.Archived)];
      var moved := MoveOfferings(p, {L.PublishedOffering}, L.Unpublished);
      return Done;
    }

    method PublishOffering(permitted: bool, k: Id) returns (out: Outcome)
      requires Inv(State())
      modifies this`products, this`offerings
      ensures (State(), out) == L.PublishOffering(old(State()), permitted, k)
      ensures Inv(State())
    {
      hide Inv;
      PublishKeeps(State(), permitted, k);
      if k !in offerings || offerings[k].product !in products {
        return Refused(NotFound);
      }
      if !permitted {
        return Refused(Forbidden);
      }
      if offerings[k].status != L.DraftOffering {
        return Refused(Conflict);
      }
      var p := offerings[k].product;
      var versions := if products[p].plugin.Some? && products[p].plugin.value in approvals then
        approvals[products[p].plugin.value] else 0;
      if versions > 1 {
        return Refused(ServerError);
      }
      if versions == 0 {
        return Refused(Conflict);
      }
      if reviewRequired && products[p].review != L.Live {
        products := products[p := products[p].(review := L.PendingReview, status := L.Published)];
        return Done;
      }
      offerings := offerings[k := offerings[k].(status := L.PublishedOffering)];
      var product := products[p];
      if product.status == L.Draft {
        product := product.(status := L.Published);
      }
      products := products[p := product.(review := L.Live)];
      return Done;
    }

    method ApproveProduct(operator: bool, p: Id) returns (out: Outcome)
      requires Inv(State())
      modifies this`products, this`offerings, this`approved
      ensures (State(), out) == L.ApproveProduct(old(State()), operator, p)
      ensures Inv(State())
    {
      hide Inv, L.Moved, L.SnapshotOf;
      ApproveKeeps(State(), operator, p);
      if !operator {
        return Refused(Forbidden);
      }
      if p !in products {
        return Refused(NotFound);
      }
      if products[p].review != L.PendingReview {
        return Refused(Conflict);
      }
      approved := approved[p := L.SnapshotOf(State(), p)];
      var product := products[p].(review := L.Live);
      if product.status == L.Draft {
        product := product.(status := L.Published);
      }
      products := products[p := product];
      var moved := MoveOfferings(p, {L.DraftOffering}, L.PublishedOffering);
      return Done;
    }

    lemma ApproveKeeps(s: L.Store, operator: bool, p: Id)
      requires Inv(s)
      ensures Inv(L.ApproveProduct(s, operator, p).0)
    {
      hide Inv, L.ApproveProduct;
      OperatorKeeps(s, L.DoApprove(operator, p));
    }

    method RejectProduct(operator: bool, p: Id, reason: string) returns (out: Outcome)
      requires Inv(State())
      modifies this`products, this`offerings
      ensures (State(), out) == L.RejectProduct(old(State()), operator, p, reason)
      ensures Inv(State())
    {
      hide Inv, L.Moved, Text.Strip;
      assert L.Apply(State(), L.DoReject(operator, p, reason)) == L.RejectProduct(State(), operator, p, reason);
      hide L.Apply;
      OperatorKeeps(State(), L.DoReject(operator, p, reason));
      if !operator {
        return Refused(Forbidden);
      }
      if Text.Strip(reason) == "" {
        return Refused(Validation);
      }
      if p !in products {
        return Refused(NotFound);
      }
      if products[p].review != L.PendingReview {
        return Refused(Conflict);
      }
      products := products[p := products[p].(review := L.Rejected)];
      var moved := MoveOfferings(p, {L.PublishedOffering, L.DraftOffering}, L.Unpublished);
      return Done;
    }

    /** The service cities of each product, one row at a time. */
    method DeleteServiceCity(permitted: bool, stocked: bool, city: Id) returns (out: Outcome)
      modifies this`cities
      ensures (State(), out) == L.DeleteCity(old(State()), permitted, stocked, city)
    {
      if !permitted {
        return Refused(Forbidden);
      }
      if stocked {
        return Refused(Conflict);
      }
      ghost var before := cities;
      var left := cities.Keys;
      while left != {}
        invariant left <= before.Keys && cities.Keys == before.Keys
        invariant forall p | p in before :: cities[p] == if p in left then before[p] else before[p] - {city}
        decreases left
      {
        var p :| p in left;
        cities := cities[p := cities[p] - {city}];
        left := left - {p};
      }
      assert cities == L.DeleteCity(old(State()), permitted, stocked, city).0.cities;
      return Done;
    }

    /** The cards of the catalogue, one offering row at a time. */
    method Catalog() returns (cards: set<L.Card>)
      ensures cards == L.Catalog(State())
    {
      var left := offerings.Keys;
      cards := {};
      ghost var seen: set<Id> := {};
      while left != {}
        invariant left <= offerings.Keys && seen == offerings.Keys - left
        invariant cards == set k | k in seen && L.Shown(State(), k) :: L.CardOf(State(), k)
        decreases left
      {
        var k :| k in left;
        left := left - {k};
        seen := seen + {k};
        var shown := IsShown(k);
        if shown {
          var o := offerings[k];
          cards := cards + {L.Card(k, o.product, products[o.product].name, products[o.product].category, o.plan,
                                   o.price)};
        }
      }
    }

    method IsShown(k: Id) returns (shown: bool)
      requires k in offerings
      ensures shown <==> L.Shown(State(), k)
      ensures shown ==> offerings[k].product in products
    {
      var p := offerings[k].product;
      if offerings[k].status != L.PublishedOffering || p !in products || products[p].status != L.Published {
        return false;
      }
      if reviewRequired && products[p].review != L.Live && products[p].review != L.NotSubmitted {
        return false;
      }
      return !products[p].ships || (p in cities && cities[p] != {});
    }
  }
}
