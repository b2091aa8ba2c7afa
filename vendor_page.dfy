/**
 * A vendor's public page: the vendor and their products loaded in sequence,
 * the phone and WhatsApp contact links, and the favourite ids with the same
 * optimistic toggle as the search page.
 */
module VendorPage {
  import opened Backend
  import opened Text
  import Favorites

  /** A `vendors` row (the columns the page reads). */
  datatype Vendor = Vendor(id: Id, name: string, phone: Option<string>)

  /** A row of the vendor's `products`. */
  datatype Listing = Listing(id: Id, name: string, price: string, imageUrls: Option<seq<string>>)

  datatype ContactKind = PhoneCall | WhatsApp

  const WHATSAPP_BASE := "https://wa.me/"
  const WHATSAPP_TEXT := "?text=Bonjour, je souhaite en savoir plus sur vos produits"

  /** The link handleContact opens, or none when the vendor has no phone number (the page
      then shows an information notice). */
  function ContactLink(vendor: Option<Vendor>, kind: ContactKind): (r: Option<string>)
    ensures r.None? <==> vendor.None? || !Truthy(vendor.value.phone)
    ensures r.Some? && kind == PhoneCall ==> r.value == "tel:" + vendor.value.phone.value
    ensures r.Some? && kind == WhatsApp ==> r.value == WHATSAPP_BASE + DigitsOnly(vendor.value.phone.value) + WHATSAPP_TEXT
  {
    if vendor.None? || !Truthy(vendor.value.phone) then None
    else match kind {
      case PhoneCall => Some("tel:" + vendor.value.phone.value)
      case WhatsApp => Some(WHATSAPP_BASE + DigitsOnly(vendor.value.phone.value) + WHATSAPP_TEXT)
    }
  }

  /** The WhatsApp number is the phone with its separators dropped: formatting the same
      number differently gives the same link, and a number already in digits is kept. */
  lemma {:induction false} WhatsAppIgnoresSeparators(v: Vendor, sep: string, head: string, tail: string)
    requires forall i :: 0 <= i < |sep| ==> !IsDigit(sep[i])
    requires forall i :: 0 <= i < |head| ==> IsDigit(head[i])
    requires forall i :: 0 <= i < |tail| ==> IsDigit(tail[i])
    requires v.phone == Some(head + sep + tail) && head + tail != ""
    ensures ContactLink(Some(v), WhatsApp) == Some(WHATSAPP_BASE + (head + tail) + WHATSAPP_TEXT)
  {
    var phone := head + sep + tail;
    assert |phone| == |head| + |sep| + |tail|;
    DigitsOnlyOfDigits(head);
    DigitsOnlyOfDigits(tail);
    DigitsOnlyOfSeparators(sep);
    DigitsOnlyAppend(head, sep);
    DigitsOnlyAppend(head + sep, tail);
    assert DigitsOnly(phone) == head + tail;
    assert |head + tail| > 0;
    assert Truthy(v.phone);
    assert ContactLink(Some(v), WhatsApp) == Some(WHATSAPP_BASE + DigitsOnly(phone) + WHATSAPP_TEXT);
  }

  class VendorView {
    const user: Option<Id>
    var vendor: Option<Vendor>
    var vendorProducts: seq<Listing>
    var loading: bool
    var favorites: seq<Id>

    constructor (user: Option<Id>)
      ensures this.user == user && vendor == None && vendorProducts == [] && loading && favorites == []
    {
      this.user := user;
      vendor, vendorProducts, loading, favorites := None, [], true, [];
    }

    /** fetchVendorData with the answer of the vendor lookup and of the products query.
        Returns whether it went back home and whether the products were fetched at all. */
    method FetchVendorData(vendorReply: Reply<Option<Vendor>>, productsReply: Reply<seq<Listing>>)
      returns (navigatedHome: bool, productsFetched: bool)
      modifies this`vendor, this`vendorProducts, this`loading
      ensures navigatedHome <==> vendorReply.Err? || vendorReply.value.None?
      ensures productsFetched <==> !navigatedHome
      ensures navigatedHome ==> vendor == old(vendor) && vendorProducts == old(vendorProducts)
      ensures !navigatedHome ==> vendor == vendorReply.value
      ensures !navigatedHome ==> vendorProducts == if productsReply.Ok? then productsReply.value else old(vendorProducts)
      ensures !loading
    {
      loading := true;
      if vendorReply.Err? || vendorReply.value.None? {
        loading := false;
        return true, false;
      }
      vendor := vendorReply.value;
      navigatedHome, productsFetched := false, true;
      if productsReply.Ok? {
        vendorProducts := productsReply.value;
      }
      loading := false;
    }

    /** fetchUserFavorites with the product ids of the user's `favorites` rows. */
    method FetchUserFavorites(reply: Reply<seq<Id>>)
      modifies this`favorites
      ensures favorites == if user.None? then [] else if reply.Ok? then reply.value else old(favorites)
    {
      if user.None? {
        favorites := [];
      } else if reply.Ok? {
        favorites := reply.value;
      }
    }

    /** toggleFavorite: identical to the search page's. */
    method ToggleFavorite(productId: Id, reply: Outcome) returns (openAuth: bool)
      modifies this`favorites
      ensures openAuth <==> user.None?
      ensures favorites == if user.None? then old(favorites) else Favorites.Settled(old(favorites), productId, reply == Done)
      ensures user.Some? ==> (productId in favorites <==> (productId in old(favorites)) != (reply == Done))
    {
      if user.None? {
        return true;
      }
      openAuth := false;
      var wasFavorite := productId in favorites;
      favorites := Favorites.Optimistic(favorites, productId);
      if reply == Error {
        if wasFavorite {
          favorites := favorites + [productId];
        } else {
          favorites := Favorites.Drop(favorites, productId);
        }
      }
      Favorites.SettledMembership(old(favorites), productId, reply == Done);
    }
  }
}
