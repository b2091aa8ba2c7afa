/**
 * The product cards the search and favourites pages build from a `products`
 * query with its embedded vendor: the first stored image or null, and the
 * vendor's name, id, location and phone lifted onto the card.
 */
module Catalog {
  import opened Backend

  /** The embedded `vendors` record of a product query. */
  datatype VendorRef = VendorRef(id: Id, name: string, location: Option<string>, phone: Option<string>)

  /** A `products` row as those queries select it; `image_urls` and the embedded
      `vendors` record may be null. */
  datatype ProductRow = ProductRow(id: Id, name: string, price: string, category: string,
                                   imageUrls: Option<seq<string>>, vendor: Option<VendorRef>)

  /** A rendered product card. The search page also carries the category; the
      favourites page does not select it. The mock rating is not modelled. */
  datatype Card = Card(id: Id, name: string, price: string, category: Option<string>, imageUrl: Option<string>,
                       vendor: string, vendorId: Id, location: Option<string>, phone: Option<string>)

  function CardId(c: Card): Id { c.id }

  /** `(p.image_urls && p.image_urls.length > 0) ? p.image_urls[0] : null`. */
  function FirstImage(urls: Option<seq<string>>): (r: Option<string>)
    ensures r.Some? <==> urls.Some? && |urls.value| > 0
    ensures r.Some? ==> r.value == urls.value[0] && r.value in urls.value
  {
    if urls.Some? && |urls.value| > 0 then Some(urls.value[0]) else None
  }

  /** Every row embeds its vendor, so `p.vendors.name` reads a record on every row. */
  predicate HasVendors(rows: seq<ProductRow>) {
    forall i :: 0 <= i < |rows| ==> rows[i].vendor.Some?
  }

  function CardOf(p: ProductRow, category: Option<string>): Card
    requires p.vendor.Some?
  {
    var v := p.vendor.value;
    Card(p.id, p.name, p.price, category, FirstImage(p.imageUrls), v.name, v.id, v.location, v.phone)
  }

  /** The card of one row, the same on both pages up to the category. */
  ghost predicate CardFor(c: Card, p: ProductRow) {
    && p.vendor.Some?
    && c.id == p.id && c.name == p.name && c.price == p.price
    && c.imageUrl == FirstImage(p.imageUrls)
    && c.vendor == p.vendor.value.name && c.vendorId == p.vendor.value.id
    && c.location == p.vendor.value.location && c.phone == p.vendor.value.phone
  }

  /** The search page's `formattedData`: one card per row, in query order, with the category;
      a row without a vendor makes the `map` throw, so there is no list at all. */
  function SearchCards(rows: seq<ProductRow>): (r: Option<seq<Card>>)
    ensures r.Some? <==> HasVendors(rows)
    ensures r.Some? ==> |r.value| == |rows|
    ensures r.Some? ==> forall i :: 0 <= i < |rows| ==>
                          CardFor(r.value[i], rows[i]) && r.value[i].category == Some(rows[i].category)
  {
    if rows == [] then Some([])
    else if rows[0].vendor.None? then None
    else
      var rest := SearchCards(rows[1..]);
      assert HasVendors(rows) <==> HasVendors(rows[1..]) by {
        if HasVendors(rows[1..]) {
          forall i | 0 <= i < |rows| ensures rows[i].vendor.Some? {
            if i > 0 { assert rows[i] == rows[1..][i - 1]; }
          }
        }
      }
      if rest.None? then None else Some([CardOf(rows[0], Some(rows[0].category))] + rest.value)
  }

  /** The favourites page's `formattedProducts`: one card per row, in query order, without
      category; a row without a vendor makes the `map` throw. */
  function FavoriteCards(rows: seq<ProductRow>): (r: Option<seq<Card>>)
    ensures r.Some? <==> HasVendors(rows)
    ensures r.Some? ==> |r.value| == |rows|
    ensures r.Some? ==> forall i :: 0 <= i < |rows| ==> CardFor(r.value[i], rows[i]) && r.value[i].category == None
  {
    if rows == [] then Some([])
    else if rows[0].vendor.None? then None
    else
      var rest := FavoriteCards(rows[1..]);
      assert HasVendors(rows) <==> HasVendors(rows[1..]) by {
        if HasVendors(rows[1..]) {
          forall i | 0 <= i < |rows| ensures rows[i].vendor.Some? {
            if i > 0 { assert rows[i] == rows[1..][i - 1]; }
          }
        }
      }
      if rest.None? then None else Some([CardOf(rows[0], None)] + rest.value)
  }

  /** Both pages fail on the same rows and otherwise render the same card for a row,
      except for the category. */
  lemma {:induction false} CardsAgreeUpToCategory(rows: seq<ProductRow>)
    ensures FavoriteCards(rows).Some? <==> SearchCards(rows).Some?
    ensures FavoriteCards(rows).Some? ==> forall i :: 0 <= i < |rows| ==>
              FavoriteCards(rows).value[i] == SearchCards(rows).value[i].(category := None)
  {
    var f, s := FavoriteCards(rows), SearchCards(rows);
    if f.Some? {
      forall i | 0 <= i < |rows| ensures f.value[i] == s.value[i].(category := None) {
        assert CardFor(f.value[i], rows[i]) && CardFor(s.value[i], rows[i]);
      }
    }
  }
}
